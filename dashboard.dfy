/**
 * The dashboard handler: the figures it derives from the rows the database
 * returns — per-provider statistics, events per day and per hour, the peak
 * hour, session spans, errors per provider and the duration profile.
 */
module Dashboard {
  import opened Wrappers
  import opened Dicts
  import opened Analytics

  // ---------------------------------------------------------------------------
  // Session spans: the first and last event of each session

  datatype Span = Span(first: int, last: int)

  /** The session of each event, in input order. */
  function Sessions(es: seq<StoredEvent>): (r: seq<string>)
    ensures |r| == |es| && forall k :: 0 <= k < |es| ==> r[k] == es[k].sessionId
  {
    if |es| == 0 then [] else Sessions(es[..|es| - 1]) + [es[|es| - 1].sessionId]
  }

  /** The timestamps of the events of session `s`, in input order. */
  function SessionTimes(es: seq<StoredEvent>, s: string): seq<int>
  {
    if |es| == 0 then []
    else
      var e := es[|es| - 1];
      SessionTimes(es[..|es| - 1], s) + (if e.sessionId == s then [e.timestamp] else [])
  }

  function MinOf(ts: seq<int>): int
    requires |ts| > 0
  {
    if |ts| == 1 then ts[0]
    else
      var m := MinOf(ts[..|ts| - 1]);
      if ts[|ts| - 1] < m then ts[|ts| - 1] else m
  }

  function MaxOf(ts: seq<int>): int
    requires |ts| > 0
  {
    if |ts| == 1 then ts[0]
    else
      var m := MaxOf(ts[..|ts| - 1]);
      if ts[|ts| - 1] > m then ts[|ts| - 1] else m
  }

  /** `MinOf` and `MaxOf` are the least and the greatest element, and both occur. */
  lemma {:induction false} MinMaxOf(ts: seq<int>)
    requires |ts| > 0
    ensures MinOf(ts) in ts && MaxOf(ts) in ts
    ensures forall k :: 0 <= k < |ts| ==> MinOf(ts) <= ts[k] <= MaxOf(ts)
  {
    if |ts| > 1 {
      var init := ts[..|ts| - 1];
      MinMaxOf(init);
      assert forall k :: 0 <= k < |init| ==> ts[k] == init[k];
    }
  }

  lemma {:induction false} SessionTimesCount(es: seq<StoredEvent>, s: string)
    ensures |SessionTimes(es, s)| == Occurrences(Sessions(es), s)
  {
    if |es| > 0 {
      SessionTimesCount(es[..|es| - 1], s);
      assert Sessions(es)[..|es| - 1] == Sessions(es[..|es| - 1]);
    }
  }

  /** The state of the span loop after the events `es`. */
  ghost predicate SpansOf(d: Dict<string, Span>, es: seq<StoredEvent>)
  {
    Valid(d) && d.keys == Dicts.Distinct(Sessions(es)) &&
    forall s <- d.vals.Keys ::
      |SessionTimes(es, s)| > 0 && d.vals[s] == Span(MinOf(SessionTimes(es, s)), MaxOf(SessionTimes(es, s)))
  }

  /** One iteration: a new session starts at its event; a known one widens to include it. */
  function AddSpan(d: Dict<string, Span>, e: StoredEvent): Dict<string, Span>
    requires Valid(d)
  {
    var s := e.sessionId;
    if s !in d.vals then Put(d, s, Span(e.timestamp, e.timestamp))
    else
      var sp := d.vals[s];
      var first := if e.timestamp < sp.first then e.timestamp else sp.first;
      var last := if e.timestamp > sp.last then e.timestamp else sp.last;
      Put(d, s, Span(first, last))
  }

  lemma AddSpanValue(d: Dict<string, Span>, es: seq<StoredEvent>, e: StoredEvent, s: string)
    requires SpansOf(d, es)
    requires s in AddSpan(d, e).vals
    ensures var ts := SessionTimes(es + [e], s);
      |ts| > 0 && AddSpan(d, e).vals[s] == Span(MinOf(ts), MaxOf(ts))
  {
    var es' := es + [e];
    assert es'[..|es'| - 1] == es && es'[|es'| - 1] == e;
    var ts := SessionTimes(es, s);
    if e.sessionId == s {
      assert SessionTimes(es', s) == ts + [e.timestamp];
      assert (ts + [e.timestamp])[..|ts|] == ts;
      if s !in d.vals {
        DistinctMembers(Sessions(es), s);
        SessionTimesCount(es, s);
        OccurrencesPositive(Sessions(es), s);
      }
    } else {
      assert SessionTimes(es', s) == ts + [];
      assert ts + [] == ts;
    }
  }

  lemma AddSpanStep(d: Dict<string, Span>, es: seq<StoredEvent>, e: StoredEvent)
    requires SpansOf(d, es)
    ensures SpansOf(AddSpan(d, e), es + [e])
  {
    var es' := es + [e];
    assert es'[..|es'| - 1] == es && es'[|es'| - 1] == e;
    assert Sessions(es')[..|es|] == Sessions(es);
    var r := AddSpan(d, e);
    forall s <- r.vals.Keys
      ensures |SessionTimes(es', s)| > 0 && r.vals[s] == Span(MinOf(SessionTimes(es', s)), MaxOf(SessionTimes(es', s)))
    {
      AddSpanValue(d, es, e, s);
    }
  }

  /**
   * The `allEvents.forEach` that fills `sessionDurations`: one entry per
   * session, whose `first` and `last` are the earliest and the latest
   * timestamp of that session's events, so `first <= last`.
   */
  method SessionSpans(events: seq<StoredEvent>) returns (spans: Dict<string, Span>)
    ensures SpansOf(spans, events)
    ensures forall s <- spans.vals.Keys ::
      spans.vals[s].first <= spans.vals[s].last &&
      (forall i :: 0 <= i < |events| && events[i].sessionId == s ==>
        spans.vals[s].first <= events[i].timestamp <= spans.vals[s].last) &&
      spans.vals[s].first in SessionTimes(events, s) && spans.vals[s].last in SessionTimes(events, s)
  {
    spans := Empty();
    var i := 0;
    while i < |events|
      invariant 0 <= i <= |events|
      invariant SpansOf(spans, events[..i])
    {
      AddSpanStep(spans, events[..i], events[i]);
      assert events[..i + 1] == events[..i] + [events[i]];
      spans := AddSpan(spans, events[i]);
      i := i + 1;
    }
    assert events[..i] == events;
    forall s <- spans.vals.Keys
      ensures spans.vals[s].first <= spans.vals[s].last &&
        (forall i :: 0 <= i < |events| && events[i].sessionId == s ==>
          spans.vals[s].first <= events[i].timestamp <= spans.vals[s].last) &&
        spans.vals[s].first in SessionTimes(events, s) && spans.vals[s].last in SessionTimes(events, s)
    {
      var ts := SessionTimes(events, s);
      MinMaxOf(ts);
      forall i | 0 <= i < |events| && events[i].sessionId == s
        ensures events[i].timestamp in ts
      {
        SessionTimeAt(events, s, i);
      }
    }
  }

  /** Every event of session `s` contributes its timestamp. */
  lemma {:induction false} SessionTimeAt(es: seq<StoredEvent>, s: string, i: nat)
    requires i < |es| && es[i].sessionId == s
    ensures es[i].timestamp in SessionTimes(es, s)
  {
    var init := es[..|es| - 1];
    if i < |es| - 1 {
      assert es[i] == init[i];
      SessionTimeAt(init, s, i);
    }
  }

  // ---------------------------------------------------------------------------
  // Performance: the sorted durations of the provider events

  predicate Sorted(s: seq<int>)
  {
    forall i, j :: 0 <= i < j < |s| ==> s[i] <= s[j]
  }

  /** Inserts `x` before the first element larger than it. */
  function Insert(x: int, s: seq<int>): (r: seq<int>)
    requires Sorted(s)
    ensures Sorted(r) && multiset(r) == multiset(s) + multiset{x}
  {
    if |s| == 0 then [x]
    else if x <= s[0] then
      SortedCons(x, s);
      [x] + s
    else
      var t := Insert(x, s[1..]);
      assert s == [s[0]] + s[1..];
      LowerBoundKept(s[0], s[1..], x, t);
      SortedCons(s[0], t);
      [s[0]] + t
  }

  /** Putting a lower bound of a sorted list in front of it keeps it sorted. */
  lemma SortedCons(b: int, t: seq<int>)
    requires Sorted(t)
    requires forall k :: 0 <= k < |t| ==> b <= t[k]
    ensures Sorted([b] + t)
  {
    var r := [b] + t;
    forall i, j | 0 <= i < j < |r|
      ensures r[i] <= r[j]
    {
      assert r[j] == t[j - 1];
      if i > 0 {
        assert r[i] == t[i - 1];
      }
    }
  }

  /** A permutation of `s` plus `x` keeps a lower bound of both. */
  lemma LowerBoundKept(b: int, s: seq<int>, x: int, t: seq<int>)
    requires forall k :: 0 <= k < |s| ==> b <= s[k]
    requires b <= x
    requires multiset(t) == multiset(s) + multiset{x}
    ensures forall k :: 0 <= k < |t| ==> b <= t[k]
  {
    forall k | 0 <= k < |t|
      ensures b <= t[k]
    {
      assert t[k] in multiset(t);
      if t[k] != x {
        assert t[k] in multiset(s);
        var j :| 0 <= j < |s| && s[j] == t[k];
      }
    }
  }

  /** `.sort((a, b) => a - b)`: ascending numeric order, a permutation of the input. */
  function SortAscending(s: seq<int>): (r: seq<int>)
    ensures Sorted(r) && multiset(r) == multiset(s) && |r| == |s|
  {
    if |s| == 0 then []
    else
      assert s == [s[0]] + s[1..];
      Insert(s[0], SortAscending(s[1..]))
  }

  /** `.filter((e) => e.duration !== null).map((e) => e.duration)`: 0 is kept. */
  function PresentDurations(es: seq<StoredEvent>): seq<int>
  {
    if |es| == 0 then []
    else
      var e := es[|es| - 1];
      PresentDurations(es[..|es| - 1]) + (if e.duration.Some? then [e.duration.value] else [])
  }

  function CountFast(ds: seq<int>): nat
  {
    if |ds| == 0 then 0 else CountFast(ds[..|ds| - 1]) + (if ds[|ds| - 1] < 1000 then 1 else 0)
  }

  function CountNormal(ds: seq<int>): nat
  {
    if |ds| == 0 then 0 else CountNormal(ds[..|ds| - 1]) + (if 1000 <= ds[|ds| - 1] < 3000 then 1 else 0)
  }

  function CountSlow(ds: seq<int>): nat
  {
    if |ds| == 0 then 0 else CountSlow(ds[..|ds| - 1]) + (if ds[|ds| - 1] >= 3000 then 1 else 0)
  }

  /** Fast, normal and slow partition the durations. */
  lemma {:induction false} BucketsPartition(ds: seq<int>)
    ensures CountFast(ds) + CountNormal(ds) + CountSlow(ds) == |ds|
  {
    if |ds| > 0 {
      BucketsPartition(ds[..|ds| - 1]);
    }
  }

  datatype Performance = Performance(
    fastRequests: nat,
    normalRequests: nat,
    slowRequests: nat,
    minDuration: int,
    maxDuration: int,
    medianDuration: int)

  /** The `performance` block, given `durationsArray`. */
  function PerformanceOf(sorted: seq<int>): Performance
  {
    var n := |sorted|;
    Performance(
      CountFast(sorted), CountNormal(sorted), CountSlow(sorted),
      if n > 0 then sorted[0] else 0,
      if n > 0 then sorted[n - 1] else 0,
      if n > 0 then sorted[n / 2] else 0)
  }

  /**
   * On the sorted durations the buckets add up to their number; the minimum,
   * median and maximum are durations that occur, ordered `min <= median <=
   * max`, with every duration between the minimum and the maximum; all three
   * are 0 when there is none.
   */
  lemma PerformanceFacts(durations: seq<int>)
    ensures var sorted := SortAscending(durations);
      var p := PerformanceOf(sorted);
      && p.fastRequests + p.normalRequests + p.slowRequests == |durations|
      && (|durations| == 0 ==> p.minDuration == p.medianDuration == p.maxDuration == 0)
      && (|durations| > 0 ==>
            p.minDuration <= p.medianDuration <= p.maxDuration &&
            p.minDuration in durations && p.medianDuration in durations && p.maxDuration in durations &&
            forall d :: d in durations ==> p.minDuration <= d <= p.maxDuration)
  {
    var sorted := SortAscending(durations);
    BucketsPartition(sorted);
    SameElements(sorted, durations);
    if |sorted| > 0 {
      SortedBounds(sorted);
    }
  }

  lemma SortedBounds(s: seq<int>)
    requires Sorted(s) && |s| > 0
    ensures s[0] <= s[|s| / 2] <= s[|s| - 1]
    ensures forall x :: x in s ==> s[0] <= x <= s[|s| - 1]
  {
  }

  lemma SameElements(a: seq<int>, b: seq<int>)
    requires multiset(a) == multiset(b)
    ensures forall x :: x in a <==> x in b
  {
    forall x ensures x in a <==> x in b {
      assert x in a <==> x in multiset(a);
      assert x in b <==> x in multiset(b);
    }
  }

  // ---------------------------------------------------------------------------
  // Hours and the peak hour

  /** `Date.getHours()`. */
  type Hour = h: nat | h < 24

  /**
   * `Object.entries(hourlyActivity).reduce((a, b) => hourlyActivity[a[0]] >
   * hourlyActivity[b[0]] ? a : b, ["0", 0])`. The keys are integer-like, so
   * they are enumerated in ascending order: the scan visits the hours `h`
   * to 23 that have a count. The accumulator is a key looked up in the
   * object each time; a missing key reads `undefined`, which is never
   * greater.
   */
  function PeakScan(counts: map<Hour, nat>, acc: Hour, h: nat): Hour
    requires h <= 24
    decreases 24 - h
  {
    if h == 24 then acc
    else if h in counts then
      var keep := acc in counts && counts[acc] > counts[h];
      PeakScan(counts, if keep then acc else h, h + 1)
    else PeakScan(counts, acc, h + 1)
  }

  /** `peakHour` (as a number; the source reports its decimal string). */
  function PeakHour(counts: map<Hour, nat>): Hour
  {
    PeakScan(counts, 0, 0)
  }

  /**
   * The accumulator is, among the hours before `h`, the latest of maximal
   * count; before any hour with a count it is the initial key `0`.
   */
  ghost predicate PeakSoFar(counts: map<Hour, nat>, acc: Hour, h: nat)
  {
    if acc in counts && acc < h then
      forall x: Hour :: x in counts && x < h ==> counts[x] <= counts[acc] && (x > acc ==> counts[x] < counts[acc])
    else
      (acc !in counts || acc == h) && forall x: Hour :: x in counts ==> x >= h
  }

  lemma {:induction false} PeakScanFacts(counts: map<Hour, nat>, acc: Hour, h: nat)
    requires h <= 24 && PeakSoFar(counts, acc, h)
    ensures var r := PeakScan(counts, acc, h);
      && (r in counts || r == acc)
      && (acc in counts ==> r in counts)
      && (forall x: Hour :: x in counts && x >= h ==> r in counts)
      && (r in counts ==>
            forall x: Hour :: x in counts ==> counts[x] <= counts[r] && (x > r ==> counts[x] < counts[r]))
    decreases 24 - h
  {
    if h < 24 {
      if h in counts {
        var keep := acc in counts && counts[acc] > counts[h];
        var next: Hour := if keep then acc else h;
        assert PeakSoFar(counts, next, h + 1);
        PeakScanFacts(counts, next, h + 1);
      } else {
        assert PeakSoFar(counts, acc, h + 1);
        PeakScanFacts(counts, acc, h + 1);
      }
    }
  }

  /**
   * `peakHour` is 0 when no event happened today; otherwise it is an hour of
   * maximal count, and every later hour has a smaller count (ties go to the
   * later hour).
   */
  lemma PeakHourFacts(counts: map<Hour, nat>)
    ensures |counts| == 0 ==> PeakHour(counts) == 0
    ensures |counts| > 0 ==>
      var r := PeakHour(counts);
      r in counts && (forall h :: h in counts ==> counts[h] <= counts[r]) &&
      (forall h :: h in counts && h > r ==> counts[h] < counts[r])
  {
    assert PeakSoFar(counts, 0, 0);
    PeakScanFacts(counts, 0, 0);
    if |counts| > 0 {
      var x :| x in counts;
    }
  }

  // ---------------------------------------------------------------------------
  // Session lengths

  function SpanLength(sp: Span): int
  {
    sp.last - sp.first
  }

  /** The summed spread (last minus first timestamp) of the sessions `ss`. */
  ghost function SpreadTotal(es: seq<StoredEvent>, ss: seq<string>): int
    requires forall s :: s in ss ==> |SessionTimes(es, s)| > 0
  {
    if |ss| == 0 then 0
    else
      var ts := SessionTimes(es, ss[|ss| - 1]);
      SpreadTotal(es, ss[..|ss| - 1]) + (MaxOf(ts) - MinOf(ts))
  }

  lemma {:induction false} SpanSum(d: Dict<string, Span>, es: seq<StoredEvent>, keys: seq<string>)
    requires SpansOf(d, es)
    requires forall s :: s in keys ==> s in d.vals
    ensures forall s :: s in keys ==> |SessionTimes(es, s)| > 0
    ensures SumKeys(keys, d.vals, SpanLength) == SpreadTotal(es, keys)
  {
    if |keys| > 0 {
      SpanSum(d, es, keys[..|keys| - 1]);
    }
  }

  // ---------------------------------------------------------------------------
  // The handler

  /**
   * What the handler reads from the clock: the three `Date` thresholds, and
   * the calendar day (`toISOString().split("T")[0]`) and local hour
   * (`getHours()`) of a timestamp.
   */
  datatype Clock = Clock(
    yesterday: int,
    sevenDaysAgo: int,
    todayStart: int,
    dayOf: int -> string,
    hourOf: int -> Hour)

  datatype Usage = Usage(
    totalEvents: nat,
    totalSessions: nat,
    eventsByType: Dict<string, nat>,
    recentEvents: nat,
    recentSessions: nat)

  datatype Engagement = Engagement(avgEventsPerSession: int, avgSessionDuration: int, totalConversations: nat)

  datatype ErrorMonitoring = ErrorMonitoring(totalErrors: nat, errorsByProvider: Dict<string, nat>)

  /** The body of the 200 response. */
  datatype Report = Report(
    usage: Usage,
    providerStats: seq<StatsRow>,
    dailyEvents: Dict<string, nat>,
    providers: seq<DataRow>,
    hourlyActivity: Dict<Hour, nat>,
    peakHour: Hour,
    engagement: Engagement,
    errors: ErrorMonitoring,
    performance: Performance)

  /** 405 `Method not allowed`, 500 `Internal server error`, or 200 with the report. */
  datatype Reply = MethodNotAllowed | InternalError | Ok(report: Report)

  function EventTypes(es: seq<StoredEvent>): (r: seq<string>)
    ensures |r| == |es| && forall k :: 0 <= k < |es| ==> r[k] == es[k].eventType
  {
    if |es| == 0 then [] else EventTypes(es[..|es| - 1]) + [es[|es| - 1].eventType]
  }

  function Hours(es: seq<StoredEvent>, hourOf: int -> Hour): (r: seq<Hour>)
    ensures |r| == |es| && forall k :: 0 <= k < |es| ==> r[k] == hourOf(es[k].timestamp)
  {
    if |es| == 0 then [] else Hours(es[..|es| - 1], hourOf) + [hourOf(es[|es| - 1].timestamp)]
  }

  /** `providerEvents`: a provider is set and the event is at most seven days old. */
  function ProviderEvents(table: seq<StoredEvent>, clock: Clock): seq<StoredEvent>
  {
    Where(table, (e: StoredEvent) => e.provider.Some? && e.timestamp >= clock.sevenDaysAgo)
  }

  /** `hourlyEvents`: the events of the last seven days. */
  function WeekEvents(table: seq<StoredEvent>, clock: Clock): seq<StoredEvent>
  {
    Where(table, (e: StoredEvent) => e.timestamp >= clock.sevenDaysAgo)
  }

  /** The events of the last 24 hours. */
  function RecentEvents(table: seq<StoredEvent>, clock: Clock): seq<StoredEvent>
  {
    Where(table, (e: StoredEvent) => e.timestamp >= clock.yesterday)
  }

  function TodayEvents(table: seq<StoredEvent>, clock: Clock): seq<StoredEvent>
  {
    Where(table, (e: StoredEvent) => e.timestamp >= clock.todayStart)
  }

  /** `failedEvents`: the provider events that did not succeed. */
  function FailedEvents(table: seq<StoredEvent>, clock: Clock): seq<StoredEvent>
  {
    Where(ProviderEvents(table, clock), (e: StoredEvent) => !e.success)
  }

  /** Only events with a non-empty provider are named; with no empty provider, all are. */
  lemma {:induction false} NamedLength(es: seq<StoredEvent>)
    ensures |Named(es)| <= |es|
    ensures (forall e :: e in es ==> e.provider != Some("")) && (forall e :: e in es ==> e.provider.Some?) ==>
      |Named(es)| == |es|
  {
    if |es| > 0 {
      var init := es[..|es| - 1];
      NamedLength(init);
      assert forall e :: e in init ==> e in es;
    }
  }

  /** The usage block: counts over the whole table and over the last 24 hours. */
  method UsageOf(table: seq<StoredEvent>, sessionCount: nat, clock: Clock) returns (usage: Usage)
    ensures usage.totalEvents == |table| && usage.totalSessions == sessionCount
    ensures IsTally(usage.eventsByType, EventTypes(table))
    ensures usage.recentEvents == |RecentEvents(table, clock)|
    ensures usage.recentSessions == |Dicts.Distinct(Sessions(RecentEvents(table, clock)))|
  {
    var eventsByType := Tally(EventTypes(table));
    var recent := RecentEvents(table, clock);
    var recentSessions := Tally(Sessions(recent));
    usage := Usage(|table|, sessionCount, eventsByType, |recent|, |recentSessions.keys|);
  }

  /**
   * The engagement block: `totalConversations` is the number of distinct
   * sessions with events, `avgEventsPerSession` the number of events over
   * it, rounded, and `avgSessionDuration` the mean session spread in
   * minutes, rounded.
   */
  method EngagementOf(table: seq<StoredEvent>) returns (engagement: Engagement)
    ensures engagement.totalConversations == |Dicts.Distinct(Sessions(table))|
    ensures engagement.avgEventsPerSession == RoundedMean(|table|, engagement.totalConversations)
    ensures forall s :: s in Dicts.Distinct(Sessions(table)) ==> |SessionTimes(table, s)| > 0
    ensures engagement.avgSessionDuration ==
      RoundedMean(SpreadTotal(table, Dicts.Distinct(Sessions(table))), 60000 * engagement.totalConversations)
  {
    var sessionsWithEvents := Tally(Sessions(table));
    var n := |sessionsWithEvents.keys|;
    var avgEvents := RoundedMean(Sum(sessionsWithEvents, Identity), n);
    var spans := SessionSpans(table);
    SpanSum(spans, table, spans.keys);
    var avgLength := RoundedMean(Sum(spans, SpanLength), 60000 * |spans.keys|);
    engagement := Engagement(avgEvents, avgLength, n);
  }

  /** The error block: all failed provider events, and their tally per (non-empty) provider. */
  method ErrorsOf(table: seq<StoredEvent>, clock: Clock) returns (errors: ErrorMonitoring)
    ensures errors.totalErrors == |FailedEvents(table, clock)|
    ensures IsTally(errors.errorsByProvider, Named(FailedEvents(table, clock)))
    ensures Sum(errors.errorsByProvider, Identity) <= errors.totalErrors
    ensures (forall e :: e in table ==> e.provider != Some("")) ==>
      Sum(errors.errorsByProvider, Identity) == errors.totalErrors
  {
    var failed := FailedEvents(table, clock);
    var errorsByProvider := Tally(Named(failed));
    NamedLength(failed);
    errors := ErrorMonitoring(|failed|, errorsByProvider);
  }

  /**
   * GET: every block of the dashboard, each as its own loop or query
   * computes it; any other method: 405; a failing database: 500.
   */
  method Handle(httpMethod: string, databaseUp: bool, table: seq<StoredEvent>, sessionCount: nat, clock: Clock)
    returns (reply: Reply)
    ensures httpMethod != "GET" <==> reply == MethodNotAllowed
    ensures httpMethod == "GET" && !databaseUp <==> reply == InternalError
    ensures reply.Ok? ==>
      var r := reply.report;
      var providerEvents := ProviderEvents(table, clock);
      && r.usage.totalEvents == |table|
      && r.usage.totalSessions == sessionCount
      && IsTally(r.usage.eventsByType, EventTypes(table))
      && r.usage.recentEvents == |RecentEvents(table, clock)|
      && r.usage.recentSessions == |Dicts.Distinct(Sessions(RecentEvents(table, clock)))|
      && StatsRows(r.providerStats, providerEvents)
      && DataRows(r.providers, providerEvents)
      && IsTally(r.dailyEvents, Days(WeekEvents(table, clock), clock.dayOf))
      && Sum(r.dailyEvents, Identity) == |WeekEvents(table, clock)|
      && IsTally(r.hourlyActivity, Hours(TodayEvents(table, clock), clock.hourOf))
      && Sum(r.hourlyActivity, Identity) == |TodayEvents(table, clock)|
      && r.peakHour == PeakHour(r.hourlyActivity.vals)
      && r.engagement.totalConversations == |Dicts.Distinct(Sessions(table))|
      && r.engagement.avgEventsPerSession == RoundedMean(|table|, r.engagement.totalConversations)
      && (forall s :: s in Dicts.Distinct(Sessions(table)) ==> |SessionTimes(table, s)| > 0)
      && r.engagement.avgSessionDuration ==
           RoundedMean(SpreadTotal(table, Dicts.Distinct(Sessions(table))), 60000 * r.engagement.totalConversations)
      && r.errors.totalErrors == |FailedEvents(table, clock)|
      && IsTally(r.errors.errorsByProvider, Named(FailedEvents(table, clock)))
      && Sum(r.errors.errorsByProvider, Identity) <= r.errors.totalErrors
      && ((forall e :: e in table ==> e.provider != Some("")) ==>
            Sum(r.errors.errorsByProvider, Identity) == r.errors.totalErrors)
      && r.performance == PerformanceOf(SortAscending(PresentDurations(providerEvents)))
  {
    if httpMethod != "GET" {
      return MethodNotAllowed;
    }
    if !databaseUp {
      return InternalError;
    }
    var usage := UsageOf(table, sessionCount, clock);
    var providerEvents := ProviderEvents(table, clock);
    var providerStats := FormatProviderStats(providerEvents);
    var dailyEvents := Tally(Days(WeekEvents(table, clock), clock.dayOf));
    var providers := FormatProviderData(providerEvents);
    var hourlyActivity := Tally(Hours(TodayEvents(table, clock), clock.hourOf));
    var engagement := EngagementOf(table);
    var errors := ErrorsOf(table, clock);
    var durationsArray := SortAscending(PresentDurations(providerEvents));
    var performance := PerformanceOf(durationsArray);
    reply := Ok(Report(
      usage, providerStats, dailyEvents, providers, hourlyActivity, PeakHour(hourlyActivity.vals),
      engagement, errors, performance));
  }
}
