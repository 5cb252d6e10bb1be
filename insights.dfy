/** The insights endpoint: provider statistics over all time and events per day over the last week. */
module InsightsEndpoint {
  import opened Wrappers
  import opened Dicts
  import opened Analytics

  /** 405 `Method not allowed`, 500 `Internal server error`, or 200 `{ providerStats, dailyEvents }`. */
  datatype Reply = MethodNotAllowed | InternalError | Ok(providerStats: seq<StatsRow>, dailyEvents: Dict<string, nat>)

  /** `providerEvents`: every event whose provider is set, with no time window. */
  function ProviderEvents(table: seq<StoredEvent>): seq<StoredEvent>
  {
    Where(table, (e: StoredEvent) => e.provider.Some?)
  }

  /** `hourlyEvents`: the events at or after `sevenDaysAgo`. */
  function WeekEvents(table: seq<StoredEvent>, sevenDaysAgo: int): seq<StoredEvent>
  {
    Where(table, (e: StoredEvent) => e.timestamp >= sevenDaysAgo)
  }

  /**
   * GET: one statistics row per provider and the number of events of the
   * last seven days per calendar day, which add up to the number of those
   * events; any other method: 405; a failing database: 500.
   */
  method Handle(httpMethod: string, databaseUp: bool, table: seq<StoredEvent>, sevenDaysAgo: int, dayOf: int -> string)
    returns (reply: Reply)
    ensures httpMethod != "GET" <==> reply == MethodNotAllowed
    ensures httpMethod == "GET" && !databaseUp <==> reply == InternalError
    ensures reply.Ok? ==> StatsRows(reply.providerStats, ProviderEvents(table))
    ensures reply.Ok? ==> IsTally(reply.dailyEvents, Days(WeekEvents(table, sevenDaysAgo), dayOf))
    ensures reply.Ok? ==> Sum(reply.dailyEvents, Identity) == |WeekEvents(table, sevenDaysAgo)|
  {
    if httpMethod != "GET" {
      return MethodNotAllowed;
    }
    if !databaseUp {
      return InternalError;
    }
    var formattedStats := FormatProviderStats(ProviderEvents(table));
    var weekEvents := WeekEvents(table, sevenDaysAgo);
    var dailyEvents := Tally(Days(weekEvents, dayOf));
    reply := Ok(formattedStats, dailyEvents);
  }
}
