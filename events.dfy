/**
 * The event ingest endpoint: from the request method and the parsed JSON
 * body to an error status or the record that is stored, with its defaults
 * filled in.
 */
module EventsEndpoint {
  import opened Wrappers

  /** A parsed JSON value, plus `undefined` for a missing property. */
  datatype Json =
    | Undefined
    | Null
    | Bool(b: bool)
    | Num(n: int)
    | Str(s: string)
    | Arr(items: seq<Json>)
    | Obj(fields: map<string, Json>)

  /** JavaScript truthiness: `undefined`, `null`, `false`, `0` and `""` are falsy. */
  predicate Truthy(v: Json)
  {
    match v
    case Undefined => false
    case Null => false
    case Bool(b) => b
    case Num(n) => n != 0
    case Str(s) => s != ""
    case Arr(_) => true
    case Obj(_) => true
  }

  /**
   * `const { name } = body`: a missing property, or any property of a
   * primitive or an array, reads `undefined`. Only called on a body that
   * can be destructured (not `null` or `undefined`).
   */
  function Field(body: Json, name: string): (v: Json)
    ensures body.Obj? && name in body.fields ==> v == body.fields[name]
    ensures !(body.Obj? && name in body.fields) ==> v == Undefined
  {
    if body.Obj? && name in body.fields then body.fields[name] else Undefined
  }

  /** `x || null`: truthy values are kept, falsy ones become `null`. */
  function OrNull(v: Json): Json
  {
    if Truthy(v) then v else Null
  }

  /** `success !== undefined ? success : true`. */
  function SuccessOrTrue(v: Json): Json
  {
    if v == Undefined then Bool(true) else v
  }

  /** The `data` passed to `prisma.event.create`. */
  datatype EventRecord = EventRecord(
    sessionId: Json,
    eventType: Json,
    provider: Json,
    success: Json,
    duration: Json,
    metadata: Option<string>)

  /** 405, 400 `Missing required fields`, 500 `Internal server error`, or 200 with the new id. */
  datatype Reply =
    | MethodNotAllowed
    | MissingFields
    | InternalError
    | Created(id: string, record: EventRecord)

  /** The record built from a body whose required fields are present. */
  function RecordOf(body: Json, stringify: Json -> string): EventRecord
  {
    var metadata := Field(body, "metadata");
    EventRecord(
      Field(body, "sessionId"),
      Field(body, "eventType"),
      OrNull(Field(body, "provider")),
      SuccessOrTrue(Field(body, "success")),
      OrNull(Field(body, "duration")),
      if Truthy(metadata) then Some(stringify(metadata)) else None)
  }

  /**
   * The handler. `stringify` is `JSON.stringify`; `create` is the database
   * insert, giving the new row's id or failing.
   */
  function Ingest(httpMethod: string, body: Json, stringify: Json -> string, create: EventRecord -> Option<string>)
    : (reply: Reply)
    ensures httpMethod != "POST" <==> reply == MethodNotAllowed
    ensures reply == MissingFields <==>
      httpMethod == "POST" && body != Undefined && body != Null &&
      (!Truthy(Field(body, "sessionId")) || !Truthy(Field(body, "eventType")))
    ensures reply.Created? ==>
      var r := reply.record;
      && Truthy(r.sessionId) && Truthy(r.eventType)
      && r.sessionId == Field(body, "sessionId") && r.eventType == Field(body, "eventType")
      && (r.provider == Null || (Truthy(r.provider) && r.provider == Field(body, "provider")))
      && (Truthy(Field(body, "provider")) ==> r.provider == Field(body, "provider"))
      && (Field(body, "success") == Undefined ==> r.success == Bool(true))
      && (Field(body, "success") != Undefined ==> r.success == Field(body, "success"))
      && (r.duration == Null || (Truthy(r.duration) && r.duration == Field(body, "duration")))
      && (Truthy(Field(body, "duration")) ==> r.duration == Field(body, "duration"))
      && (r.metadata.Some? <==> Truthy(Field(body, "metadata")))
      && (r.metadata.Some? ==> r.metadata.value == stringify(Field(body, "metadata")))
      && create(r) == Some(reply.id)
  {
    if httpMethod != "POST" then MethodNotAllowed
    // destructuring `null` or `undefined` throws inside the `try`
    else if body == Undefined || body == Null then InternalError
    else if !Truthy(Field(body, "sessionId")) || !Truthy(Field(body, "eventType")) then MissingFields
    else
      var record := RecordOf(body, stringify);
      match create(record)
      case None => InternalError
      case Some(id) => Created(id, record)
  }

  /** The body that carries a stored record's fields back (metadata as its stored text). */
  function BodyOf(r: EventRecord): Json
  {
    Obj(map[
      "sessionId" := r.sessionId,
      "eventType" := r.eventType,
      "provider" := r.provider,
      "success" := r.success,
      "duration" := r.duration,
      "metadata" := if r.metadata.Some? then Str(r.metadata.value) else Null])
  }

  /**
   * The defaults are a normal form: posting a stored record's fields again
   * stores the same session, type, provider, success flag and duration (a
   * `null` provider or duration stays `null`, an explicit `false` stays
   * `false`, a filled-in `true` stays `true`).
   */
  lemma DefaultsIdempotent(body: Json, stringify: Json -> string, create: EventRecord -> Option<string>, id: string)
    requires Ingest("POST", body, stringify, create) == Created(id, RecordOf(body, stringify))
    ensures var r := RecordOf(body, stringify);
      var again := RecordOf(BodyOf(r), stringify);
      && again.sessionId == r.sessionId && again.eventType == r.eventType
      && again.provider == r.provider && again.success == r.success && again.duration == r.duration
      && (again.metadata.Some? <==> r.metadata.Some? && r.metadata.value != "")
  {
    var r := RecordOf(body, stringify);
    var b := BodyOf(r);
    assert Field(b, "provider") == r.provider;
    assert Field(b, "success") == r.success;
    assert Field(b, "duration") == r.duration;
    assert Field(b, "metadata") == if r.metadata.Some? then Str(r.metadata.value) else Null;
  }
}
