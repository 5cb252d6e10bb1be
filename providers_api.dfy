/** The providers endpoint: per-provider figures over every `api_call` event. */
module ProvidersEndpoint {
  import opened Wrappers
  import opened Analytics

  /** 405 `Method not allowed`, 500 `Internal server error`, or 200 `{ providers }`. */
  datatype Reply = MethodNotAllowed | InternalError | Ok(providers: seq<DataRow>)

  /** The query's `where`: a provider is set and the event type is `api_call`. */
  function ApiCalls(table: seq<StoredEvent>): seq<StoredEvent>
  {
    Where(table, (e: StoredEvent) => e.provider.Some? && e.eventType == "api_call")
  }

  /**
   * The calls counted for a provider are exactly its `api_call` events: an
   * event of another type, or with a null or empty provider, is never counted.
   */
  lemma ApiCallsOf(table: seq<StoredEvent>, p: string, e: StoredEvent)
    ensures e in CallsOf(ApiCalls(table), p) <==> e in table && e.eventType == "api_call" && CallOf(e, p)
  {
    CallsOfMembers(ApiCalls(table), p, e);
  }

  /**
   * GET: one row per provider with an `api_call` event, in order of first
   * appearance, holding that provider's counts, rounded average duration
   * and timestamps; any other method: 405; a failing database: 500.
   */
  method Handle(httpMethod: string, databaseUp: bool, table: seq<StoredEvent>) returns (reply: Reply)
    ensures httpMethod != "GET" <==> reply == MethodNotAllowed
    ensures httpMethod == "GET" && !databaseUp <==> reply == InternalError
    ensures reply.Ok? ==> DataRows(reply.providers, ApiCalls(table))
  {
    if httpMethod != "GET" {
      return MethodNotAllowed;
    }
    if !databaseUp {
      return InternalError;
    }
    var formattedData := FormatProviderData(ApiCalls(table));
    reply := Ok(formattedData);
  }
}
