/** The `UploadBatch` record and `build_batch`, which copies the provider's
    batch object into it field by field and stamps the run's trace id.

    The provider's batch object is seen through its attributes: a map from
    attribute name to value, where a missing name is what `getattr(obj,
    name, None)` turns into None. Construction is pydantic validation: every
    required field must hold a value of its type, every optional field a
    value of its type or None, and a failure names every invalid field in
    declaration order. */
module UploadBatchModel {
  import opened Common
  import opened Uuids

  /** The provider's `Errors` object, carried along unread. */
  datatype BatchErrors = BatchErrors(messages: seq<string>)

  /** An attribute value of the provider object. */
  datatype Value =
    | VNone
    | VStr(s: string)
    | VInt(i: int)
    | VErrors(errors: BatchErrors)
    | VUuid(uuid: Uuid)
    | VOther

  type Attributes = map<string, Value>

  datatype UploadBatch = UploadBatch(
    id: string,
    completionWindow: string,
    createdAt: int,
    endpoint: string,
    inputFileId: string,
    outputFileId: Option<string>,
    status: string,
    cancelledAt: Option<int>,
    cancellingAt: Option<int>,
    completedAt: Option<int>,
    expiredAt: Option<int>,
    expiresAt: Option<int>,
    failedAt: Option<int>,
    finalizingAt: Option<int>,
    inProgressAt: Option<int>,
    errorFileId: Option<string>,
    errors: Option<BatchErrors>,
    traceId: Uuid)

  /** The declared fields of `UploadBatch`. */
  datatype Field =
    | Id | CompletionWindow | CreatedAt | Endpoint | InputFileId | OutputFileId | Status
    | CancelledAt | CancellingAt | CompletedAt | ExpiredAt | ExpiresAt | FailedAt
    | FinalizingAt | InProgressAt | ErrorFileId | Errors | TraceId

  /** The fields in declaration order (`UploadBatch.model_fields`). */
  const Fields: seq<Field> := [
    Id, CompletionWindow, CreatedAt, Endpoint, InputFileId, OutputFileId, Status,
    CancelledAt, CancellingAt, CompletedAt, ExpiredAt, ExpiresAt, FailedAt,
    FinalizingAt, InProgressAt, ErrorFileId, Errors, TraceId]

  lemma FieldListed(f: Field)
    ensures f in Fields
  {
  }

  /** The attribute name of a field. */
  function Name(f: Field): string {
    match f
    case Id => "id"
    case CompletionWindow => "completion_window"
    case CreatedAt => "created_at"
    case Endpoint => "endpoint"
    case InputFileId => "input_file_id"
    case OutputFileId => "output_file_id"
    case Status => "status"
    case CancelledAt => "cancelled_at"
    case CancellingAt => "cancelling_at"
    case CompletedAt => "completed_at"
    case ExpiredAt => "expired_at"
    case ExpiresAt => "expires_at"
    case FailedAt => "failed_at"
    case FinalizingAt => "finalizing_at"
    case InProgressAt => "in_progress_at"
    case ErrorFileId => "error_file_id"
    case Errors => "errors"
    case TraceId => "trace_id"
  }

  datatype FieldKind = RequiredStr | RequiredInt | OptionalStr | OptionalInt | OptionalErrors | RequiredUuid

  function KindOf(f: Field): FieldKind {
    match f
    case Id | CompletionWindow | Endpoint | InputFileId | Status => RequiredStr
    case CreatedAt => RequiredInt
    case OutputFileId | ErrorFileId => OptionalStr
    case Errors => OptionalErrors
    case TraceId => RequiredUuid
    case _ => OptionalInt
  }

  /** Whether pydantic accepts `v` for a field of the given kind. */
  predicate Admissible(kind: FieldKind, v: Value) {
    match kind
    case RequiredStr => v.VStr?
    case RequiredInt => v.VInt?
    case OptionalStr => v.VNone? || v.VStr?
    case OptionalInt => v.VNone? || v.VInt?
    case OptionalErrors => v.VNone? || v.VErrors?
    case RequiredUuid => v.VUuid?
  }

  /** `getattr(obj, name, None)`. */
  function Getattr(obj: Attributes, name: string): Value {
    if name in obj then obj[name] else VNone
  }

  /** `{key: getattr(obj, key, None) for key in UploadBatch.model_fields}`. */
  function InputFields(obj: Attributes): (fields: map<Field, Value>)
    ensures forall f :: f in fields
  {
    forall f ensures f in Fields { FieldListed(f); }
    map f | f in Fields :: Getattr(obj, Name(f))
  }

  /** The fields among `fs` whose value pydantic rejects, in order. */
  function InvalidFields(fields: map<Field, Value>, fs: seq<Field>): (r: seq<Field>)
    requires forall f :: f in fields
    ensures forall f :: f in r <==> f in fs && !Admissible(KindOf(f), fields[f])
  {
    if |fs| == 0 then []
    else
      (if Admissible(KindOf(fs[0]), fields[fs[0]]) then [] else [fs[0]])
      + InvalidFields(fields, fs[1..])
  }

  lemma NoInvalidFields(fields: map<Field, Value>)
    requires forall f :: f in fields
    requires InvalidFields(fields, Fields) == []
    ensures forall f :: Admissible(KindOf(f), fields[f])
  {
    forall f ensures Admissible(KindOf(f), fields[f]) {
      FieldListed(f);
    }
  }

  function Names(fs: seq<Field>): seq<string> {
    if |fs| == 0 then [] else [Name(fs[0])] + Names(fs[1..])
  }

  function OptStr(v: Value): Option<string> {
    if v.VStr? then Some(v.s) else None
  }

  function OptInt(v: Value): Option<int> {
    if v.VInt? then Some(v.i) else None
  }

  /** `UploadBatch(**fields)`. */
  function Construct(fields: map<Field, Value>): Result<UploadBatch, Exception>
    requires forall f :: f in fields
  {
    var invalid := InvalidFields(fields, Fields);
    if |invalid| > 0 then Failure(ValidationError(Names(invalid)))
    else Success(FromFields(fields))
  }

  function StrOf(v: Value): string {
    if v.VStr? then v.s else ""
  }

  function IntOf(v: Value): int {
    if v.VInt? then v.i else 0
  }

  function UuidOf(v: Value): Uuid {
    if v.VUuid? then v.uuid else "00000000000000000000000000000000"
  }

  /** The record that the field values describe; meant for admissible
      values, where every field reads back as the value it was built from. */
  function FromFields(fields: map<Field, Value>): UploadBatch
    requires forall f :: f in fields
  {
    UploadBatch(
      StrOf(fields[Id]),
      StrOf(fields[CompletionWindow]),
      IntOf(fields[CreatedAt]),
      StrOf(fields[Endpoint]),
      StrOf(fields[InputFileId]),
      OptStr(fields[OutputFileId]),
      StrOf(fields[Status]),
      OptInt(fields[CancelledAt]),
      OptInt(fields[CancellingAt]),
      OptInt(fields[CompletedAt]),
      OptInt(fields[ExpiredAt]),
      OptInt(fields[ExpiresAt]),
      OptInt(fields[FailedAt]),
      OptInt(fields[FinalizingAt]),
      OptInt(fields[InProgressAt]),
      OptStr(fields[ErrorFileId]),
      if fields[Errors].VErrors? then Some(fields[Errors].errors) else None,
      UuidOf(fields[TraceId]))
  }

  /** `build_batch(open_ai_batch, trace_id)`. */
  function BuildBatch(obj: Attributes, traceId: Uuid): Result<UploadBatch, Exception> {
    Construct(BuildFields(obj, traceId))
  }

  /** Reads a field of an `UploadBatch` back as an attribute value. */
  function FieldValue(b: UploadBatch, f: Field): Value {
    match f
    case Id => VStr(b.id)
    case CompletionWindow => VStr(b.completionWindow)
    case CreatedAt => VInt(b.createdAt)
    case Endpoint => VStr(b.endpoint)
    case InputFileId => VStr(b.inputFileId)
    case OutputFileId => OptStrValue(b.outputFileId)
    case Status => VStr(b.status)
    case CancelledAt => OptIntValue(b.cancelledAt)
    case CancellingAt => OptIntValue(b.cancellingAt)
    case CompletedAt => OptIntValue(b.completedAt)
    case ExpiredAt => OptIntValue(b.expiredAt)
    case ExpiresAt => OptIntValue(b.expiresAt)
    case FailedAt => OptIntValue(b.failedAt)
    case FinalizingAt => OptIntValue(b.finalizingAt)
    case InProgressAt => OptIntValue(b.inProgressAt)
    case ErrorFileId => OptStrValue(b.errorFileId)
    case Errors => if b.errors.Some? then VErrors(b.errors.value) else VNone
    case TraceId => VUuid(b.traceId)
  }

  function OptStrValue(o: Option<string>): Value {
    if o.Some? then VStr(o.value) else VNone
  }

  function OptIntValue(o: Option<int>): Value {
    if o.Some? then VInt(o.value) else VNone
  }

  /** Reading a field back from the built record gives the value it was
      built from. */
  lemma FromFieldsReadsBack(fields: map<Field, Value>, f: Field)
    requires forall g :: g in fields
    requires Admissible(KindOf(f), fields[f])
    ensures FieldValue(FromFields(fields), f) == fields[f]
  {
  }

  /** The dictionary handed to the constructor: every field read from the
      provider object, then `trace_id` replaced by the argument. */
  function BuildFields(obj: Attributes, traceId: Uuid): (fields: map<Field, Value>)
    ensures forall f :: f in fields
    ensures forall f | f != TraceId :: fields[f] == Getattr(obj, Name(f))
    ensures fields[TraceId] == VUuid(traceId)
  {
    InputFields(obj)[TraceId := VUuid(traceId)]
  }

  /** A successful build copies every field other than `trace_id` from the
      same-named attribute of the provider object (None where it has none),
      and `trace_id` is always the argument. */
  lemma BuildBatchCopiesFields(obj: Attributes, traceId: Uuid)
    requires BuildBatch(obj, traceId).Success?
    ensures forall f | f != TraceId :: FieldValue(BuildBatch(obj, traceId).value, f) == Getattr(obj, Name(f))
    ensures BuildBatch(obj, traceId).value.traceId == traceId
  {
    var fields := BuildFields(obj, traceId);
    NoInvalidFields(fields);
    forall f | f != TraceId
      ensures FieldValue(BuildBatch(obj, traceId).value, f) == Getattr(obj, Name(f))
    {
      FromFieldsReadsBack(fields, f);
    }
  }

  /** The build fails exactly when some field other than `trace_id` holds a
      value of the wrong type, which for a required field includes a
      missing attribute or None; the error names exactly those fields, in
      declaration order. */
  lemma BuildBatchFailsOnInvalidField(obj: Attributes, traceId: Uuid)
    ensures BuildBatch(obj, traceId).Failure? <==>
      exists f | f != TraceId :: !Admissible(KindOf(f), Getattr(obj, Name(f)))
    ensures BuildBatch(obj, traceId).Failure? ==>
      BuildBatch(obj, traceId).error == ValidationError(Names(InvalidFields(BuildFields(obj, traceId), Fields)))
  {
    ConstructFails(BuildFields(obj, traceId));
    BuildFieldsInvalid(obj, traceId);
  }

  lemma BuildFieldsInvalid(obj: Attributes, traceId: Uuid)
    ensures (exists f :: !Admissible(KindOf(f), BuildFields(obj, traceId)[f])) <==>
      exists f | f != TraceId :: !Admissible(KindOf(f), Getattr(obj, Name(f)))
  {
    var fields := BuildFields(obj, traceId);
    forall f ensures !Admissible(KindOf(f), fields[f]) <==>
      f != TraceId && !Admissible(KindOf(f), Getattr(obj, Name(f)))
    {
      if f != TraceId {
        assert fields[f] == Getattr(obj, Name(f));
      }
    }
  }

  /** Construction fails exactly when some field value is inadmissible. */
  lemma ConstructFails(fields: map<Field, Value>)
    requires forall f :: f in fields
    ensures Construct(fields).Failure? <==> exists f :: !Admissible(KindOf(f), fields[f])
    ensures Construct(fields).Failure? ==>
      Construct(fields).error == ValidationError(Names(InvalidFields(fields, Fields)))
  {
    var invalid := InvalidFields(fields, Fields);
    if exists f :: !Admissible(KindOf(f), fields[f]) {
      var f :| !Admissible(KindOf(f), fields[f]);
      FieldListed(f);
      assert f in invalid;
    }
    if |invalid| > 0 {
      assert invalid[0] in invalid;
    }
  }

  /** Attributes of the provider object that are not fields are dropped,
      and so is any `trace_id` attribute it carries. */
  lemma BuildBatchIgnoresOtherAttributes(obj: Attributes, name: string, v: Value, traceId: Uuid)
    requires forall f | Name(f) == name :: f == TraceId
    ensures BuildBatch(obj[name := v], traceId) == BuildBatch(obj, traceId)
  {
    var a := BuildFields(obj[name := v], traceId);
    var b := BuildFields(obj, traceId);
    forall f ensures a[f] == b[f] {
      if f != TraceId {
        assert Name(f) != name;
      }
    }
    assert a == b;
  }
}
