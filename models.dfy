/** The record shapes of the tool (gisaid_cli/models.py) and the pydantic behaviour the tool
    relies on: validating a row of Python values into a record (with defaults and the
    `empty_string_to_none` normaliser) and dumping a record back into a row, optionally under
    serialization aliases. */
module Models {
  import opened Wrappers
  import opened Json
  import opened Enums

  /** `empty_string_to_none`: a falsy value (`None`, `""`, and Python's other falsy values)
      becomes `None`; anything else is returned unchanged. Pydantic runs it on the raw field
      value before checking the field's type. */
  function EmptyStringToNone(v: Value): (r: Value)
    ensures (v == JNull || v == JString("")) ==> r == JNull
    ensures v.JString? && v.s != "" ==> r == v
    ensures r == JNull || r == v
    ensures r == JNull <==> !Truthy(v)
    ensures r != JString("")
  {
    if !Truthy(v) then JNull else v
  }

  /** Normalising twice is normalising once. */
  lemma EmptyStringToNoneIdempotent(v: Value)
    ensures EmptyStringToNone(EmptyStringToNone(v)) == EmptyStringToNone(v)
  {
  }

  /** `AuthToken`; the expiry is kept as the epoch seconds it was built from. */
  datatype AuthToken = AuthToken(database: Database, clientId: string, token: string, expiry: int)

  /** A validation failure, naming every field that failed (pydantic reports them all). */
  datatype ValidationError = ValidationError(fields: set<string>)

  /** The `Metadata` fields that have no default: a `str` must be supplied. */
  const RequiredFields: set<string> := {
    "submitter", "fn", "covv_virus_name", "covv_type", "covv_passage", "covv_collection_date",
    "covv_location", "covv_host", "covv_gender", "covv_patient_age", "covv_patient_status",
    "covv_seq_technology", "covv_orig_lab", "covv_orig_lab_addr", "covv_subm_lab",
    "covv_subm_lab_addr", "covv_authors"
  }

  /** The `Metadata` fields typed `NonEmptyStrOrNone = None`. */
  const OptionalFields: set<string> := {
    "covv_add_location", "covv_add_host_info", "covv_sampling_strategy", "covv_specimen",
    "covv_outbreak", "covv_last_vaccinated", "covv_treatment", "covv_assembly_method",
    "covv_coverage", "covv_provider_sample_id", "covv_subm_sample_id", "covv_consortium"
  }

  const MetadataFields: set<string> := RequiredFields + OptionalFields

  /** The values `Metadata` admits for field `n`: a `str` for a required field; for an
      optional one (`NonEmptyStrOrNone`) `None` or a non-empty `str`. */
  predicate ValidFieldValue(n: string, v: Value) {
    if n in RequiredFields then v.JString? else v == JNull || (v.JString? && v.s != "")
  }

  /** What a `Metadata` instance guarantees of its fields: exactly the declared fields are
      present, each holding a value its type admits. */
  ghost predicate IsMetadata(fields: Object) {
    && (forall n {:trigger n in fields} :: n in fields <==> n in MetadataFields)
    && forall n {:trigger fields[n]} | n in fields :: ValidFieldValue(n, fields[n])
  }

  /** A `Metadata` record, as its field values by field name (what `model_dump()` returns);
      `None` is `JNull`. */
  type Metadata = fields: Object | IsMetadata(fields)
    witness map n | n in MetadataFields :: if n in RequiredFields then JString("x") else JNull

  /** The identity field, used to join records with sequences. */
  function VirusName(m: Metadata): string {
    m["covv_virus_name"].s
  }

  /** The submitting user, sent beside each upload. */
  function Submitter(m: Metadata): string {
    m["submitter"].s
  }

  /** A required `str` field is valid when it is present and is a string. */
  predicate RequiredValid(row: Object, name: string) {
    name in row && row[name].JString?
  }

  /** An optional field is valid when it is absent, or normalises to `None` or to a string. */
  predicate OptionalValid(row: Object, name: string) {
    name !in row || EmptyStringToNone(row[name]).JNull? || EmptyStringToNone(row[name]).JString?
  }

  /** The fields whose value `Metadata.model_validate(row)` rejects. Keys that are not fields
      are ignored. */
  function MetadataErrors(row: Object): set<string> {
    (set n | n in RequiredFields && !RequiredValid(row, n))
    + (set n | n in OptionalFields && !OptionalValid(row, n))
  }

  /** A row is rejected exactly when some required field is missing or not a string, or some
      optional field is present with a value that is neither falsy nor a string. */
  lemma MetadataErrorsEmpty(row: Object)
    ensures MetadataErrors(row) == {} <==>
      (forall n | n in RequiredFields :: RequiredValid(row, n))
      && (forall n | n in OptionalFields :: OptionalValid(row, n))
  {
    if MetadataErrors(row) == {} {
      forall n | n in RequiredFields ensures RequiredValid(row, n) {
        assert n !in MetadataErrors(row);
      }
      forall n | n in OptionalFields ensures OptionalValid(row, n) {
        assert n !in MetadataErrors(row);
      }
    }
  }

  /** The value field `name` receives from `row`: a required field its string, an optional
      field its normalised value, or the default `None` when the row does not supply it. */
  function FieldValue(row: Object, name: string): Value {
    if name in RequiredFields then (if name in row then row[name] else JNull)
    else if name in row then EmptyStringToNone(row[name])
    else JNull
  }

  /** On a row that validates, every field receives a value its type admits. */
  lemma FieldValuesValid(row: Object)
    requires MetadataErrors(row) == {}
    ensures forall n | n in MetadataFields :: ValidFieldValue(n, FieldValue(row, n))
  {
    MetadataErrorsEmpty(row);
  }

  /** Every field with the value it receives from `row`, whether or not the row validates. */
  function FieldMap(row: Object): (r: Object)
    ensures forall n {:trigger n in r} :: n in r <==> n in MetadataFields
    ensures forall n | n in r :: r[n] == FieldValue(row, n)
  {
    map n | n in MetadataFields :: FieldValue(row, n)
  }

  /** On a row that validates, the field values make a record. */
  lemma FieldMapIsMetadata(row: Object)
    requires MetadataErrors(row) == {}
    ensures IsMetadata(FieldMap(row))
  {
    FieldValuesValid(row);
  }

  /** The record a row that validates produces: every field receives its value. */
  function Validated(row: Object): (m: Metadata)
    requires MetadataErrors(row) == {}
    ensures forall n | n in MetadataFields :: m[n] == FieldValue(row, n)
  {
    FieldMapIsMetadata(row);
    FieldMap(row)
  }

  /** `Metadata.model_validate(row)`. */
  function MetadataFromRow(row: Object): (r: Result<Metadata, ValidationError>)
    ensures r.Failure? <==> MetadataErrors(row) != {}
    ensures r.Failure? ==> r.error == ValidationError(MetadataErrors(row))
    ensures r.Success? ==> forall n | n in MetadataFields :: r.value[n] == FieldValue(row, n)
  {
    if MetadataErrors(row) != {} then Failure(ValidationError(MetadataErrors(row)))
    else Success(Validated(row))
  }

  /** A validated required field holds the row's string. */
  lemma ValidatedRequiredField(row: Object, n: string)
    requires MetadataFromRow(row).Success? && n in RequiredFields
    ensures row[n].JString? && MetadataFromRow(row).value[n] == row[n]
  {
    MetadataErrorsEmpty(row);
  }

  /** A validated optional field that the row does not supply holds the default `None`. */
  lemma OptionalFieldDefaultsToNone(row: Object, n: string)
    requires MetadataFromRow(row).Success? && n in OptionalFields && n !in row
    ensures MetadataFromRow(row).value[n] == JNull
  {
    OptionalNotRequired(n);
  }

  /** A validated optional field that the row supplies holds the normalised value: `None`
      for `""` (or any falsy value), the string itself otherwise. */
  lemma OptionalFieldNormalised(row: Object, n: string)
    requires MetadataFromRow(row).Success? && n in OptionalFields && n in row
    ensures MetadataFromRow(row).value[n] == EmptyStringToNone(row[n])
  {
    OptionalNotRequired(n);
  }

  /** No field is both required and optional. */
  lemma OptionalNotRequired(n: string)
    requires n in OptionalFields
    ensures n !in RequiredFields
  {
  }

  /** Every field of a record passes validation. */
  lemma MetadataFieldsValidate(m: Metadata)
    ensures MetadataErrors(m) == {}
  {
    forall n | n in RequiredFields ensures RequiredValid(m, n) {
      assert ValidFieldValue(n, m[n]);
    }
    forall n | n in OptionalFields ensures OptionalValid(m, n) {
      assert ValidFieldValue(n, m[n]);
    }
    MetadataErrorsEmpty(m);
  }

  /** Every field of a record is a fixed point of the value validation assigns: this is where
      the normaliser being idempotent matters. */
  lemma MetadataFieldValuesFixed(m: Metadata, n: string)
    requires n in MetadataFields
    ensures FieldValue(m, n) == m[n]
  {
    assert ValidFieldValue(n, m[n]);
  }

  /** Validating a dumped record gives the record back. */
  lemma MetadataRoundTrip(m: Metadata)
    ensures MetadataFromRow(m) == Success(m)
  {
    MetadataFieldsValidate(m);
    var r := MetadataFromRow(m).value;
    forall n | n in MetadataFields ensures r[n] == m[n] {
      MetadataFieldValuesFixed(m, n);
    }
    assert r == m;
  }

  /** Validation only looks at the declared fields: adding keys that are not fields changes
      nothing. */
  lemma MetadataIgnoresExtraKeys(row: Object, extra: Object)
    requires extra.Keys !! MetadataFields
    ensures MetadataFromRow(row + extra) == MetadataFromRow(row)
  {
    var big := row + extra;
    assert forall n | n in MetadataFields :: (n in big <==> n in row) && (n in row ==> big[n] == row[n]);
    assert MetadataErrors(big) == MetadataErrors(row);
    if MetadataErrors(row) == {} {
      var a := map n | n in MetadataFields :: FieldValue(big, n);
      var b := map n | n in MetadataFields :: FieldValue(row, n);
      assert a == b;
    }
  }

  /** The protocol version tag every submission carries unless told otherwise. */
  const DefaultSt: string := "v 3.0.4"

  /** The key a field is dumped under: its serialization alias when dumping by alias. */
  function ConfirmedKey(byAlias: bool): string {
    if byAlias then "_subm_confirmed" else "subm_confirmed"
  }

  function StKey(byAlias: bool): string {
    if byAlias then "_st" else "st"
  }

  /** `Submission`: a `Metadata` record extended with the sequence, the frameshift confirmation
      and the protocol version tag `st`. */
  datatype Submission = Submission(
    meta: Metadata,
    covvSequence: string,
    submConfirmed: FrameshiftsConfirmation,
    st: string
  )

  /** The fields `Submission` adds to `Metadata`, dumped under names or aliases. */
  function OwnFields(s: Submission, byAlias: bool): Object {
    map[
      "covv_sequence" := JString(s.covvSequence),
      ConfirmedKey(byAlias) := JString(s.submConfirmed.Value()),
      StKey(byAlias) := JString(s.st)
    ]
  }

  /** No key that `Submission` adds, under its name or its alias, is a `Metadata` field. */
  lemma SequenceKeyIsNotMetadata()
    ensures "covv_sequence" !in MetadataFields
  {
  }

  lemma ConfirmedKeyIsNotMetadata()
    ensures "subm_confirmed" !in MetadataFields
  {
  }

  lemma ConfirmedAliasIsNotMetadata()
    ensures "_subm_confirmed" !in MetadataFields
  {
  }

  lemma StKeyIsNotMetadata()
    ensures "st" !in MetadataFields
  {
  }

  lemma StAliasIsNotMetadata()
    ensures "_st" !in MetadataFields
  {
  }

  lemma AddedKeysAreNotMetadata()
    ensures "covv_sequence" !in MetadataFields
    ensures "subm_confirmed" !in MetadataFields && "_subm_confirmed" !in MetadataFields
    ensures "st" !in MetadataFields && "_st" !in MetadataFields
  {
    SequenceKeyIsNotMetadata();
    ConfirmedKeyIsNotMetadata();
    ConfirmedAliasIsNotMetadata();
    StKeyIsNotMetadata();
    StAliasIsNotMetadata();
  }

  lemma OwnFieldsAreNotMetadata(s: Submission, byAlias: bool)
    ensures OwnFields(s, byAlias).Keys !! MetadataFields
  {
    AddedKeysAreNotMetadata();
    var keys := OwnFields(s, byAlias).Keys;
    assert keys == {"covv_sequence", ConfirmedKey(byAlias), StKey(byAlias)};
  }

  /** `model_dump(mode="json", by_alias=byAlias)` of a submission. */
  function Dump(s: Submission, byAlias: bool): Object {
    s.meta + OwnFields(s, byAlias)
  }

  /** A dump holds every metadata field unchanged. */
  lemma DumpKeepsMetadata(s: Submission, byAlias: bool)
    ensures forall n | n in MetadataFields :: n in Dump(s, byAlias) && Dump(s, byAlias)[n] == s.meta[n]
  {
    OwnFieldsAreNotMetadata(s, byAlias);
  }

  /** A dump holds the three added fields under their names, or under their aliases. */
  lemma DumpOwnFields(s: Submission, byAlias: bool)
    ensures "covv_sequence" in Dump(s, byAlias) && Dump(s, byAlias)["covv_sequence"] == JString(s.covvSequence)
    ensures ConfirmedKey(byAlias) in Dump(s, byAlias)
    ensures Dump(s, byAlias)[ConfirmedKey(byAlias)] == JString(s.submConfirmed.Value())
    ensures StKey(byAlias) in Dump(s, byAlias) && Dump(s, byAlias)[StKey(byAlias)] == JString(s.st)
  {
  }

  /** A dump holds nothing but the metadata fields and the three added fields. */
  lemma DumpHasNoOtherKeys(s: Submission, byAlias: bool, n: string)
    requires n in Dump(s, byAlias)
    ensures n in MetadataFields || n == "covv_sequence" || n == ConfirmedKey(byAlias) || n == StKey(byAlias)
  {
  }

  /** Dumping by alias emits `subm_confirmed` and `st` only under `_subm_confirmed` and `_st`. */
  lemma DumpByAliasUsesAliases(s: Submission)
    ensures "_subm_confirmed" in Dump(s, true) && "_st" in Dump(s, true)
    ensures "subm_confirmed" !in Dump(s, true) && "st" !in Dump(s, true)
  {
    AddedKeysAreNotMetadata();
  }

  /** `subm_confirmed` is valid when it is one of the enumeration's values. */
  predicate ConfirmationValid(row: Object) {
    && "subm_confirmed" in row
    && row["subm_confirmed"].JString?
    && ConfirmationFromValue(row["subm_confirmed"].s).Some?
  }

  /** `st` is valid when absent (it has a default) or a string. */
  predicate StValid(row: Object) {
    "st" !in row || row["st"].JString?
  }

  /** The fields whose value `Submission.model_validate(row)` rejects. Validation reads fields
      by name, never by serialization alias. */
  function SubmissionErrors(row: Object): set<string> {
    MetadataErrors(row)
    + (if RequiredValid(row, "covv_sequence") then {} else {"covv_sequence"})
    + (if ConfirmationValid(row) then {} else {"subm_confirmed"})
    + (if StValid(row) then {} else {"st"})
  }

  /** Errors only ever name declared fields, and `Submission` reports every error `Metadata`
      would. */
  lemma ErrorsNameFields(row: Object)
    ensures MetadataErrors(row) <= MetadataFields
    ensures MetadataErrors(row) <= SubmissionErrors(row)
    ensures SubmissionErrors(row) <= MetadataFields + {"covv_sequence", "subm_confirmed", "st"}
  {
  }

  /** `Submission.model_validate(row)`. */
  function SubmissionFromRow(row: Object): (r: Result<Submission, ValidationError>)
    ensures r.Failure? <==> SubmissionErrors(row) != {}
    ensures r.Failure? ==> r.error == ValidationError(SubmissionErrors(row))
    ensures r.Success? ==> MetadataFromRow(row) == Success(r.value.meta)
    ensures r.Success? ==> row["covv_sequence"] == JString(r.value.covvSequence)
    ensures r.Success? ==> row["subm_confirmed"] == JString(r.value.submConfirmed.Value())
    ensures r.Success? ==> r.value.st == if "st" in row then row["st"].s else DefaultSt
  {
    if SubmissionErrors(row) != {} then Failure(ValidationError(SubmissionErrors(row)))
    else
      var meta := MetadataFromRow(row).value;
      var confirmed := ConfirmationFromValue(row["subm_confirmed"].s).value;
      var st := if "st" in row then row["st"].s else DefaultSt;
      Success(Submission(meta, row["covv_sequence"].s, confirmed, st))
  }

  /** A record with keys added that are not fields validates to the record. */
  lemma MetadataWithExtras(m: Metadata, extra: Object)
    requires extra.Keys !! MetadataFields
    ensures MetadataFromRow(m + extra) == Success(m)
  {
    MetadataIgnoresExtraKeys(m, extra);
    MetadataRoundTrip(m);
  }

  /** A row whose metadata validates and that holds a sequence string and a confirmation value
      validates to the submission they make, with `st` defaulting when absent. */
  lemma SubmissionFromValidRow(row: Object, m: Metadata, sequence: string, confirmation: FrameshiftsConfirmation, st: string)
    requires MetadataFromRow(row) == Success(m)
    requires "covv_sequence" in row && row["covv_sequence"] == JString(sequence)
    requires "subm_confirmed" in row && row["subm_confirmed"] == JString(confirmation.Value())
    requires if "st" in row then row["st"] == JString(st) else st == DefaultSt
    ensures SubmissionFromRow(row) == Success(Submission(m, sequence, confirmation, st))
  {
    ConfirmationValueRoundTrip(confirmation);
    assert SubmissionErrors(row) == {};
  }

  /** Validating a submission dumped under field names gives it back. */
  lemma SubmissionRoundTrip(s: Submission)
    ensures SubmissionFromRow(Dump(s, false)) == Success(s)
  {
    OwnFieldsAreNotMetadata(s, false);
    MetadataWithExtras(s.meta, OwnFields(s, false));
    DumpOwnFields(s, false);
    SubmissionFromValidRow(Dump(s, false), s.meta, s.covvSequence, s.submConfirmed, s.st);
  }

  /** The metadata part of a dump by alias still validates. */
  lemma AliasedDumpMetadataValid(s: Submission)
    ensures MetadataErrors(Dump(s, true)) == {}
  {
    OwnFieldsAreNotMetadata(s, true);
    MetadataWithExtras(s.meta, OwnFields(s, true));
  }

  /** The serialization aliases are for output only: a dump by alias is rejected by validation,
      because `subm_confirmed` is then missing (`_st` is ignored and `st` would default). */
  lemma AliasedDumpIsNotRevalidated(s: Submission)
    ensures SubmissionFromRow(Dump(s, true)) == Failure(ValidationError({"subm_confirmed"}))
  {
    var row := Dump(s, true);
    AliasedDumpMetadataValid(s);
    DumpOwnFields(s, true);
    DumpByAliasUsesAliases(s);
    assert RequiredValid(row, "covv_sequence") && !ConfirmationValid(row) && StValid(row);
    assert SubmissionErrors(row) == {"subm_confirmed"};
  }
}
