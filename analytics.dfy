/**
 * What the analytics endpoints compute from rows of the `Event` table once
 * the database has returned them: the per-provider grouping loops shared by
 * the dashboard, providers and insights handlers, and the rounded averages
 * they report.
 */
module Analytics {
  import opened Wrappers
  import opened Dicts
  import opened Seqs

  /** A row of the `Event` table; `timestamp` is in milliseconds. */
  datatype StoredEvent = StoredEvent(
    sessionId: string,
    eventType: string,
    provider: Option<string>,
    success: bool,
    duration: Option<int>,
    timestamp: int)

  /** `if (!event.provider) return;` lets the event through: a non-null, non-empty provider. */
  predicate HasProvider(e: StoredEvent)
  {
    e.provider.Some? && e.provider.value != ""
  }

  /** `if (event.duration) total += event.duration`: what the event adds to a duration total. */
  function DurationAdded(e: StoredEvent): int
  {
    if e.duration.Some? && e.duration.value != 0 then e.duration.value else 0
  }

  /** The event counts towards provider `p`. */
  predicate CallOf(e: StoredEvent, p: string)
  {
    HasProvider(e) && e.provider.value == p
  }

  /** The providers named by the events the loops count, one per event, in input order. */
  function Named(es: seq<StoredEvent>): seq<string>
  {
    if |es| == 0 then []
    else
      var e := es[|es| - 1];
      Named(es[..|es| - 1]) + (if HasProvider(e) then [e.provider.value] else [])
  }

  /** The events counted for provider `p`, in input order. */
  function CallsOf(es: seq<StoredEvent>, p: string): seq<StoredEvent>
  {
    if |es| == 0 then []
    else
      var e := es[|es| - 1];
      CallsOf(es[..|es| - 1], p) + (if CallOf(e, p) then [e] else [])
  }

  /** The positions in `es` of the events counted for `p`. */
  function PositionsOf(es: seq<StoredEvent>, p: string): seq<nat>
  {
    if |es| == 0 then []
    else PositionsOf(es[..|es| - 1], p) + (if CallOf(es[|es| - 1], p) then [|es| - 1] else [])
  }

  /** `CallsOf` lists, one for one, the events at the positions `PositionsOf` gives. */
  lemma {:induction false} CallsAtPositions(es: seq<StoredEvent>, p: string)
    ensures var pos := PositionsOf(es, p);
      |pos| == |CallsOf(es, p)| &&
      forall k :: 0 <= k < |pos| ==> pos[k] < |es| && CallsOf(es, p)[k] == es[pos[k]]
  {
    if |es| > 0 {
      var init := es[..|es| - 1];
      CallsAtPositions(init, p);
      var pos, pos0 := PositionsOf(es, p), PositionsOf(init, p);
      var cs, cs0 := CallsOf(es, p), CallsOf(init, p);
      forall k | 0 <= k < |pos|
        ensures pos[k] < |es| && cs[k] == es[pos[k]]
      {
        if k < |pos0| {
          assert pos[k] == pos0[k] && cs[k] == cs0[k] && es[pos[k]] == init[pos0[k]];
        }
      }
    }
  }

  /** The positions `PositionsOf` gives are in range and strictly increasing. */
  lemma {:induction false} PositionsIncrease(es: seq<StoredEvent>, p: string)
    ensures forall k :: 0 <= k < |PositionsOf(es, p)| ==> PositionsOf(es, p)[k] < |es|
    ensures forall k, l :: 0 <= k < l < |PositionsOf(es, p)| ==> PositionsOf(es, p)[k] < PositionsOf(es, p)[l]
  {
    if |es| > 0 {
      var init := es[..|es| - 1];
      PositionsIncrease(init, p);
      var pos, pos0 := PositionsOf(es, p), PositionsOf(init, p);
      assert |init| == |es| - 1;
      forall k | 0 <= k < |pos|
        ensures pos[k] < |es| && (k < |pos0| ==> pos[k] == pos0[k] < |es| - 1)
      {
        if k < |pos0| {
          assert pos[k] == pos0[k];
        }
      }
    }
  }

  /** Every event counted for `p` has its position in `PositionsOf`. */
  lemma {:induction false} PositionsComplete(es: seq<StoredEvent>, p: string)
    ensures forall i :: 0 <= i < |es| && CallOf(es[i], p) ==> i in PositionsOf(es, p)
  {
    if |es| > 0 {
      var init := es[..|es| - 1];
      PositionsComplete(init, p);
      var pos, pos0 := PositionsOf(es, p), PositionsOf(init, p);
      forall i | 0 <= i < |es| && CallOf(es[i], p)
        ensures i in pos
      {
        if i < |es| - 1 {
          assert es[i] == init[i];
          assert i in pos0;
          assert pos0 <= pos;
        } else {
          assert pos[|pos| - 1] == i;
        }
      }
    }
  }

  /**
   * `CallsOf` keeps the input order: it lists the events at strictly
   * increasing positions, and every event counted for `p` is among them.
   */
  lemma CallsOfInOrder(es: seq<StoredEvent>, p: string)
    ensures var pos := PositionsOf(es, p);
      |pos| == |CallsOf(es, p)| &&
      (forall k :: 0 <= k < |pos| ==> pos[k] < |es| && CallsOf(es, p)[k] == es[pos[k]]) &&
      (forall k, l :: 0 <= k < l < |pos| ==> pos[k] < pos[l]) &&
      (forall i :: 0 <= i < |es| && CallOf(es[i], p) ==> i in pos)
  {
    CallsAtPositions(es, p);
    PositionsIncrease(es, p);
    PositionsComplete(es, p);
  }

  /** Each event counted for `p` names `p`, so `CallsOf` counts the occurrences of `p` in `Named`. */
  lemma {:induction false} CallsOfCount(es: seq<StoredEvent>, p: string)
    ensures |CallsOf(es, p)| == Occurrences(Named(es), p)
  {
    if |es| > 0 {
      var init := es[..|es| - 1];
      CallsOfCount(init, p);
      var n := Named(es);
      if HasProvider(es[|es| - 1]) {
        assert n[..|n| - 1] == Named(init);
      } else {
        assert n == Named(init);
      }
    }
  }

  // ---------------------------------------------------------------------------
  // The reference: what each provider's entry should hold

  function SuccessCount(calls: seq<StoredEvent>): nat
  {
    if |calls| == 0 then 0
    else SuccessCount(calls[..|calls| - 1]) + (if calls[|calls| - 1].success then 1 else 0)
  }

  function FailureCount(calls: seq<StoredEvent>): nat
  {
    if |calls| == 0 then 0
    else FailureCount(calls[..|calls| - 1]) + (if calls[|calls| - 1].success then 0 else 1)
  }

  /** The sum of the truthy durations. */
  function DurationTotal(calls: seq<StoredEvent>): int
  {
    if |calls| == 0 then 0
    else DurationTotal(calls[..|calls| - 1]) + DurationAdded(calls[|calls| - 1])
  }

  function Timestamps(calls: seq<StoredEvent>): (ts: seq<int>)
  {
    if |calls| == 0 then []
    else Timestamps(calls[..|calls| - 1]) + [calls[|calls| - 1].timestamp]
  }

  /**
   * Every call is either a success or a failure, and contributes one
   * timestamp, its own, at its own position.
   */
  lemma {:induction false} CallsPartition(calls: seq<StoredEvent>)
    ensures SuccessCount(calls) + FailureCount(calls) == |calls| == |Timestamps(calls)|
    ensures forall k :: 0 <= k < |calls| ==> Timestamps(calls)[k] == calls[k].timestamp
  {
    if |calls| > 0 {
      CallsPartition(calls[..|calls| - 1]);
    }
  }

  /** Durations that are null or 0 add nothing: the total is the sum of all present durations. */
  lemma {:induction false} DurationTotalOfPresent(calls: seq<StoredEvent>)
    ensures DurationTotal(calls) == PresentDurationSum(calls)
  {
    if |calls| > 0 {
      DurationTotalOfPresent(calls[..|calls| - 1]);
    }
  }

  function PresentDurationSum(calls: seq<StoredEvent>): int
  {
    if |calls| == 0 then 0
    else
      var e := calls[|calls| - 1];
      PresentDurationSum(calls[..|calls| - 1]) + (if e.duration.Some? then e.duration.value else 0)
  }

  // ---------------------------------------------------------------------------
  // `providerData[event.provider]` in the dashboard and providers handlers

  datatype ProviderData = ProviderData(
    totalCalls: nat,
    successfulCalls: nat,
    failedCalls: nat,
    totalDuration: int,
    timestamps: seq<int>)

  /** What the entry of a provider whose calls are `calls` holds. */
  function DataOf(calls: seq<StoredEvent>): ProviderData
  {
    ProviderData(|calls|, SuccessCount(calls), FailureCount(calls), DurationTotal(calls), Timestamps(calls))
  }

  function TotalCallsOfData(d: ProviderData): int
  {
    d.totalCalls
  }

  /** One more call of the provider, added to its entry. */
  function AddCallData(v: ProviderData, e: StoredEvent): ProviderData
  {
    ProviderData(
      v.totalCalls + 1,
      if e.success then v.successfulCalls + 1 else v.successfulCalls,
      if e.success then v.failedCalls else v.failedCalls + 1,
      v.totalDuration + DurationAdded(e),
      v.timestamps + [e.timestamp])
  }

  lemma DataOfSnoc(calls: seq<StoredEvent>, e: StoredEvent)
    ensures DataOf(calls + [e]) == AddCallData(DataOf(calls), e)
  {
    assert (calls + [e])[..|calls|] == calls;
  }

  /** The state of the loop after the events `es`. */
  ghost predicate DataGrouped(d: Dict<string, ProviderData>, es: seq<StoredEvent>)
  {
    Valid(d) && d.keys == Dicts.Distinct(Named(es)) &&
    (forall p <- d.vals.Keys :: d.vals[p] == DataOf(CallsOf(es, p))) &&
    Sum(d, TotalCallsOfData) == |Named(es)|
  }

  /** One iteration of the `providerData` loop: `if (!providerData[p]) providerData[p] = {...zeros}`, then the updates. */
  function AddData(d: Dict<string, ProviderData>, e: StoredEvent): Dict<string, ProviderData>
    requires Valid(d)
  {
    if !HasProvider(e) then d
    else
      var p := e.provider.value;
      Put(d, p, AddCallData(if p in d.vals then d.vals[p] else ProviderData(0, 0, 0, 0, []), e))
  }

  /** A provider that is not yet a key has no counted calls. */
  lemma NoCallsYet(es: seq<StoredEvent>, keys: seq<string>, p: string)
    requires keys == Dicts.Distinct(Named(es)) && p !in keys
    ensures CallsOf(es, p) == []
  {
    DistinctMembers(Named(es), p);
    CallsOfCount(es, p);
    OccurrencesPositive(Named(es), p);
  }

  /** One more event adds its provider, if it has one, to `Named`. */
  lemma NamedStep(es: seq<StoredEvent>, e: StoredEvent)
    ensures Named(es + [e]) == Named(es) + (if HasProvider(e) then [e.provider.value] else [])
  {
    var es' := es + [e];
    assert es'[..|es'| - 1] == es && es'[|es'| - 1] == e;
  }

  /** One more event adds itself to the calls of its provider and to no others. */
  lemma CallsStep(es: seq<StoredEvent>, e: StoredEvent, q: string)
    ensures CallsOf(es + [e], q) == CallsOf(es, q) + (if CallOf(e, q) then [e] else [])
  {
    var es' := es + [e];
    assert es'[..|es'| - 1] == es && es'[|es'| - 1] == e;
  }

  /** One more event appends its provider to the distinct providers exactly when it is new. */
  lemma DistinctStep(es: seq<StoredEvent>, e: StoredEvent)
    ensures HasProvider(e) ==>
      Dicts.Distinct(Named(es + [e])) ==
        if e.provider.value in Dicts.Distinct(Named(es)) then Dicts.Distinct(Named(es))
        else Dicts.Distinct(Named(es)) + [e.provider.value]
    ensures !HasProvider(e) ==> Dicts.Distinct(Named(es + [e])) == Dicts.Distinct(Named(es))
  {
    NamedStep(es, e);
    var n := Named(es + [e]);
    if HasProvider(e) {
      assert n[..|n| - 1] == Named(es);
    } else {
      assert n == Named(es);
    }
  }

  lemma AddDataValue(d: Dict<string, ProviderData>, es: seq<StoredEvent>, e: StoredEvent, q: string)
    requires DataGrouped(d, es)
    requires q in AddData(d, e).vals
    ensures AddData(d, e).vals[q] == DataOf(CallsOf(es + [e], q))
  {
    CallsStep(es, e, q);
    if CallOf(e, q) {
      if q !in d.vals {
        NoCallsYet(es, d.keys, q);
      }
      DataOfSnoc(CallsOf(es, q), e);
    } else {
      assert CallsOf(es, q) + [] == CallsOf(es, q);
    }
  }

  /** The keys after one more event: its provider is appended when new. */
  lemma AddDataStepKeys(d: Dict<string, ProviderData>, es: seq<StoredEvent>, e: StoredEvent)
    requires DataGrouped(d, es)
    ensures Valid(AddData(d, e)) && AddData(d, e).keys == Dicts.Distinct(Named(es + [e]))
  {
    DistinctStep(es, e);
  }

  /** The entries after one more event summarise the calls so far. */
  lemma AddDataStepValues(d: Dict<string, ProviderData>, es: seq<StoredEvent>, e: StoredEvent)
    requires DataGrouped(d, es)
    ensures forall q <- AddData(d, e).vals.Keys :: AddData(d, e).vals[q] == DataOf(CallsOf(es + [e], q))
  {
    forall q <- AddData(d, e).vals.Keys
      ensures AddData(d, e).vals[q] == DataOf(CallsOf(es + [e], q))
    {
      AddDataValue(d, es, e, q);
    }
  }

  /** One more event with a provider adds one call to the total. */
  lemma AddDataStepSum(d: Dict<string, ProviderData>, es: seq<StoredEvent>, e: StoredEvent)
    requires DataGrouped(d, es)
    ensures Sum(AddData(d, e), TotalCallsOfData) == |Named(es + [e])|
  {
    NamedStep(es, e);
    if HasProvider(e) {
      var p := e.provider.value;
      SumPut(d, p, AddData(d, e).vals[p], TotalCallsOfData);
    }
  }

  lemma AddDataStep(d: Dict<string, ProviderData>, es: seq<StoredEvent>, e: StoredEvent)
    requires DataGrouped(d, es)
    ensures DataGrouped(AddData(d, e), es + [e])
  {
    AddDataStepKeys(d, es, e);
    AddDataStepValues(d, es, e);
    AddDataStepSum(d, es, e);
  }

  /** The empty object groups no events. */
  lemma DataGroupedEmpty(events: seq<StoredEvent>)
    ensures DataGrouped(Empty(), events[..0])
  {
    assert events[..0] == [];
  }

  /** `AddDataStep` taken at position `i` of the events. */
  lemma AddDataStepAt(d: Dict<string, ProviderData>, events: seq<StoredEvent>, i: nat)
    requires i < |events| && DataGrouped(d, events[..i])
    ensures DataGrouped(AddData(d, events[i]), events[..i + 1])
  {
    PrefixStep(events, i);
    AddDataStep(d, events[..i], events[i]);
  }

  /** In a grouping of all the events, each entry's counts agree and it holds at least one call. */
  lemma DataGroupedCounts(d: Dict<string, ProviderData>, es: seq<StoredEvent>)
    requires DataGrouped(d, es)
    ensures forall p <- d.vals.Keys ::
      d.vals[p].successfulCalls + d.vals[p].failedCalls == d.vals[p].totalCalls == |d.vals[p].timestamps| >= 1
  {
    forall p <- d.vals.Keys
      ensures d.vals[p].successfulCalls + d.vals[p].failedCalls == d.vals[p].totalCalls == |d.vals[p].timestamps| >= 1
    {
      CallsPartition(CallsOf(es, p));
      DistinctMembers(Named(es), p);
      CallsOfCount(es, p);
      OccurrencesPositive(Named(es), p);
    }
  }

  /**
   * The `providerEvents.forEach` that fills `providerData`: the keys are the
   * providers in order of first appearance, each entry summarises exactly
   * that provider's events (counts that agree, timestamps in input order),
   * and the calls add up to the number of events with a provider.
   */
  method GroupProviderData(events: seq<StoredEvent>) returns (providerData: Dict<string, ProviderData>)
    ensures Valid(providerData) && providerData.keys == Dicts.Distinct(Named(events))
    ensures forall p <- providerData.vals.Keys :: providerData.vals[p] == DataOf(CallsOf(events, p))
    ensures forall p <- providerData.vals.Keys ::
      providerData.vals[p].successfulCalls + providerData.vals[p].failedCalls == providerData.vals[p].totalCalls
      == |providerData.vals[p].timestamps| >= 1
    ensures Sum(providerData, TotalCallsOfData) == |Named(events)|
  {
    providerData := Empty();
    DataGroupedEmpty(events);
    var i := 0;
    while i < |events|
      invariant 0 <= i <= |events|
      invariant DataGrouped(providerData, events[..i])
    {
      AddDataStepAt(providerData, events, i);
      providerData := AddData(providerData, events[i]);
      i := i + 1;
    }
    assert events[..i] == events;
    DataGroupedCounts(providerData, events);
  }

  // ---------------------------------------------------------------------------
  // The `providerData` loop on a plain `{}` object, as written

  /** The names a plain object inherits from `Object.prototype`: each reads as a truthy function or object. */
  predicate Inherited(name: string)
  {
    name in {
      "constructor", "__proto__", "hasOwnProperty", "isPrototypeOf",
      "propertyIsEnumerable", "toString", "toLocaleString", "valueOf",
      "__defineGetter__", "__defineSetter__", "__lookupGetter__", "__lookupSetter__"}
  }

  /**
   * The `providerData` loop as written: an inherited name is already truthy,
   * so it never gets an entry of its own, and `.timestamps.push` then runs on
   * `undefined` and throws a `TypeError` (`None`). Until then each step is
   * `AddData`, so what it builds is the grouping of the events so far.
   */
  function GroupOnPlainObject(es: seq<StoredEvent>): (r: Option<Dict<string, ProviderData>>)
    ensures r.Some? ==> DataGrouped(r.value, es)
  {
    if |es| == 0 then Some(Empty())
    else
      var init, e := es[..|es| - 1], es[|es| - 1];
      match GroupOnPlainObject(init)
      case None => None
      case Some(d) =>
        if HasProvider(e) && e.provider.value !in d.vals && Inherited(e.provider.value) then None
        else
          AddDataStepLast(d, es);
          Some(AddData(d, e))
  }

  /** `AddDataStep` for the last event of `es`. */
  lemma AddDataStepLast(d: Dict<string, ProviderData>, es: seq<StoredEvent>)
    requires |es| > 0 && DataGrouped(d, es[..|es| - 1])
    ensures DataGrouped(AddData(d, es[|es| - 1]), es)
  {
    assert es == es[..|es| - 1] + [es[|es| - 1]];
    AddDataStep(d, es[..|es| - 1], es[|es| - 1]);
  }

  /** The loop as written throws exactly when some counted event names an inherited provider. */
  lemma {:induction false} PlainObjectThrows(es: seq<StoredEvent>)
    ensures GroupOnPlainObject(es).None? <==> exists p :: p in Named(es) && Inherited(p)
  {
    if |es| > 0 {
      var init, e := es[..|es| - 1], es[|es| - 1];
      assert es == init + [e];
      PlainObjectThrows(init);
      NamedStep(init, e);
      var r := GroupOnPlainObject(init);
      if r.Some? && HasProvider(e) && Inherited(e.provider.value) {
        var p := e.provider.value;
        DistinctMembers(Named(init), p);
      }
    }
  }

  /** One `api_call` event with provider "constructor" makes the loop as written throw, while the grouping counts it. */
  lemma ConstructorProviderThrows(e: StoredEvent)
    requires e.provider == Some("constructor")
    ensures GroupOnPlainObject([e]).None?
    ensures "constructor" in AddData(Empty(), e).vals
  {
    assert [e][..0] == [];
  }

  // ---------------------------------------------------------------------------
  // `providerStats[event.provider]` in the dashboard and insights handlers

  datatype ProviderStats = ProviderStats(totalCalls: nat, successCount: nat, totalDuration: int)

  function StatsOf(calls: seq<StoredEvent>): ProviderStats
  {
    ProviderStats(|calls|, SuccessCount(calls), DurationTotal(calls))
  }

  function TotalCallsOfStats(s: ProviderStats): int
  {
    s.totalCalls
  }

  ghost predicate StatsGrouped(d: Dict<string, ProviderStats>, es: seq<StoredEvent>)
  {
    Valid(d) && d.keys == Dicts.Distinct(Named(es)) &&
    (forall p <- d.vals.Keys :: d.vals[p] == StatsOf(CallsOf(es, p))) &&
    Sum(d, TotalCallsOfStats) == |Named(es)|
  }

  function AddCallStats(v: ProviderStats, e: StoredEvent): ProviderStats
  {
    ProviderStats(
      v.totalCalls + 1,
      if e.success then v.successCount + 1 else v.successCount,
      v.totalDuration + DurationAdded(e))
  }

  lemma StatsOfSnoc(calls: seq<StoredEvent>, e: StoredEvent)
    ensures StatsOf(calls + [e]) == AddCallStats(StatsOf(calls), e)
  {
    assert (calls + [e])[..|calls|] == calls;
  }

  /** One iteration of the `providerStats` loop. */
  function AddStats(d: Dict<string, ProviderStats>, e: StoredEvent): Dict<string, ProviderStats>
    requires Valid(d)
  {
    if !HasProvider(e) then d
    else
      var p := e.provider.value;
      Put(d, p, AddCallStats(if p in d.vals then d.vals[p] else ProviderStats(0, 0, 0), e))
  }

  lemma AddStatsValue(d: Dict<string, ProviderStats>, es: seq<StoredEvent>, e: StoredEvent, q: string)
    requires StatsGrouped(d, es)
    requires q in AddStats(d, e).vals
    ensures AddStats(d, e).vals[q] == StatsOf(CallsOf(es + [e], q))
  {
    CallsStep(es, e, q);
    if CallOf(e, q) {
      if q !in d.vals {
        NoCallsYet(es, d.keys, q);
      }
      StatsOfSnoc(CallsOf(es, q), e);
    } else {
      assert CallsOf(es, q) + [] == CallsOf(es, q);
    }
  }

  /** The keys after one more event: its provider is appended when new. */
  lemma AddStatsStepKeys(d: Dict<string, ProviderStats>, es: seq<StoredEvent>, e: StoredEvent)
    requires StatsGrouped(d, es)
    ensures Valid(AddStats(d, e)) && AddStats(d, e).keys == Dicts.Distinct(Named(es + [e]))
  {
    DistinctStep(es, e);
  }

  /** The entries after one more event summarise the calls so far. */
  lemma AddStatsStepValues(d: Dict<string, ProviderStats>, es: seq<StoredEvent>, e: StoredEvent)
    requires StatsGrouped(d, es)
    ensures forall q <- AddStats(d, e).vals.Keys :: AddStats(d, e).vals[q] == StatsOf(CallsOf(es + [e], q))
  {
    forall q <- AddStats(d, e).vals.Keys
      ensures AddStats(d, e).vals[q] == StatsOf(CallsOf(es + [e], q))
    {
      AddStatsValue(d, es, e, q);
    }
  }

  /** One more event with a provider adds one call to the total. */
  lemma AddStatsStepSum(d: Dict<string, ProviderStats>, es: seq<StoredEvent>, e: StoredEvent)
    requires StatsGrouped(d, es)
    ensures Sum(AddStats(d, e), TotalCallsOfStats) == |Named(es + [e])|
  {
    NamedStep(es, e);
    if HasProvider(e) {
      var p := e.provider.value;
      SumPut(d, p, AddStats(d, e).vals[p], TotalCallsOfStats);
    }
  }

  lemma AddStatsStep(d: Dict<string, ProviderStats>, es: seq<StoredEvent>, e: StoredEvent)
    requires StatsGrouped(d, es)
    ensures StatsGrouped(AddStats(d, e), es + [e])
  {
    AddStatsStepKeys(d, es, e);
    AddStatsStepValues(d, es, e);
    AddStatsStepSum(d, es, e);
  }

  /** The empty object groups no events. */
  lemma StatsGroupedEmpty(events: seq<StoredEvent>)
    ensures StatsGrouped(Empty(), events[..0])
  {
    assert events[..0] == [];
  }

  /** `AddStatsStep` taken at position `i` of the events. */
  lemma AddStatsStepAt(d: Dict<string, ProviderStats>, events: seq<StoredEvent>, i: nat)
    requires i < |events| && StatsGrouped(d, events[..i])
    ensures StatsGrouped(AddStats(d, events[i]), events[..i + 1])
  {
    PrefixStep(events, i);
    AddStatsStep(d, events[..i], events[i]);
  }

  /** In a grouping of all the events, no entry has more successes than calls. */
  lemma StatsGroupedCounts(d: Dict<string, ProviderStats>, es: seq<StoredEvent>)
    requires StatsGrouped(d, es)
    ensures forall p <- d.vals.Keys :: d.vals[p].successCount <= d.vals[p].totalCalls
  {
    forall p <- d.vals.Keys
      ensures d.vals[p].successCount <= d.vals[p].totalCalls
    {
      CallsPartition(CallsOf(es, p));
    }
  }

  /**
   * The `providerEvents.forEach` that fills `providerStats`: each entry
   * summarises exactly that provider's events, successes never exceed calls,
   * and the calls add up to the number of events with a provider.
   */
  method GroupProviderStats(events: seq<StoredEvent>) returns (providerStats: Dict<string, ProviderStats>)
    ensures Valid(providerStats) && providerStats.keys == Dicts.Distinct(Named(events))
    ensures forall p <- providerStats.vals.Keys :: providerStats.vals[p] == StatsOf(CallsOf(events, p))
    ensures forall p <- providerStats.vals.Keys ::
      providerStats.vals[p].successCount <= providerStats.vals[p].totalCalls
    ensures Sum(providerStats, TotalCallsOfStats) == |Named(events)|
  {
    providerStats := Empty();
    StatsGroupedEmpty(events);
    var i := 0;
    while i < |events|
      invariant 0 <= i <= |events|
      invariant StatsGrouped(providerStats, events[..i])
    {
      AddStatsStepAt(providerStats, events, i);
      providerStats := AddStats(providerStats, events[i]);
      i := i + 1;
    }
    assert events[..i] == events;
    StatsGroupedCounts(providerStats, events);
  }

  // ---------------------------------------------------------------------------
  // Averages

  /**
   * `calls > 0 ? Math.round(total / calls) : 0`: the integer nearest to the
   * mean, halves rounded up.
   */
  function RoundedMean(total: int, calls: nat): (r: int)
    ensures calls > 0 ==> 2 * calls * r - calls <= 2 * total < 2 * calls * r + calls
    ensures calls == 0 ==> r == 0
  {
    if calls > 0 then
      var n, d := 2 * total + calls, 2 * calls;
      var q := n / d;
      assert n == d * q + n % d && 0 <= n % d < d;
      assert 2 * calls * q == d * q;
      q
    else 0
  }

  /** `c * a` grows with `a`. */
  lemma MulStep(c: nat, a: int, b: int)
    requires a < b
    ensures c * a + c <= c * b
  {
    var k := b - a;
    assert k >= 1;
    assert c * b == c * a + c * k;
    assert c * k >= c;
  }

  /** The rounded mean is the only integer within half a unit of the mean. */
  lemma RoundedMeanUnique(total: int, calls: nat, r: int)
    requires calls > 0
    requires 2 * calls * r - calls <= 2 * total < 2 * calls * r + calls
    ensures r == RoundedMean(total, calls)
  {
    var m := RoundedMean(total, calls);
    if r < m {
      MulStep(2 * calls, r, m);
    } else if r > m {
      MulStep(2 * calls, m, r);
    }
  }

  /** When every duration lies in `[lo, hi]`, so does the average. */
  lemma RoundedMeanBounds(total: int, calls: nat, lo: int, hi: int)
    requires calls > 0 && calls * lo <= total <= calls * hi
    ensures lo <= RoundedMean(total, calls) <= hi
  {
    var r := RoundedMean(total, calls);
    assert 2 * calls * lo == 2 * (calls * lo) && 2 * calls * hi == 2 * (calls * hi);
    if r < lo {
      MulStep(2 * calls, r, lo);
    }
    if r > hi {
      MulStep(2 * calls, hi, r);
    }
  }

  // ---------------------------------------------------------------------------
  // Prisma `where` clauses

  /** The rows of `table` a `where` clause keeps, in table order. */
  function Where(table: seq<StoredEvent>, keep: StoredEvent -> bool): (r: seq<StoredEvent>)
    ensures forall e :: e in r <==> e in table && keep(e)
    ensures |r| <= |table|
  {
    if |table| == 0 then []
    else
      var e := table[|table| - 1];
      assert table == table[..|table| - 1] + [e];
      Where(table[..|table| - 1], keep) + (if keep(e) then [e] else [])
  }

  /** The calendar day of each event (`timestamp.toISOString().split("T")[0]`, given as `dayOf`). */
  function Days(es: seq<StoredEvent>, dayOf: int -> string): (r: seq<string>)
    ensures |r| == |es| && forall k :: 0 <= k < |es| ==> r[k] == dayOf(es[k].timestamp)
  {
    if |es| == 0 then [] else Days(es[..|es| - 1], dayOf) + [dayOf(es[|es| - 1].timestamp)]
  }

  /** `CallsOf` keeps exactly the events counted for `p`. */
  lemma {:induction false} CallsOfMembers(es: seq<StoredEvent>, p: string, e: StoredEvent)
    ensures e in CallsOf(es, p) <==> e in es && CallOf(e, p)
  {
    if |es| > 0 {
      CallsOfMembers(es[..|es| - 1], p, e);
      assert es == es[..|es| - 1] + [es[|es| - 1]];
    }
  }

  /** A provider is named exactly when some event counts towards it. */
  lemma {:induction false} NamedMembers(es: seq<StoredEvent>, p: string)
    ensures p in Named(es) <==> exists i :: 0 <= i < |es| && CallOf(es[i], p)
  {
    if |es| > 0 {
      var init := es[..|es| - 1];
      NamedMembers(init, p);
      if p in Named(init) {
        var i :| 0 <= i < |init| && CallOf(init[i], p);
        assert es[i] == init[i];
      }
      if exists i :: 0 <= i < |es| && CallOf(es[i], p) {
        var i :| 0 <= i < |es| && CallOf(es[i], p);
        if i < |es| - 1 {
          assert init[i] == es[i];
        }
      }
    }
  }

  // ---------------------------------------------------------------------------
  // `formattedProviderData`: one row per entry of `providerData`

  /** A row of `providers` (the success rate, a float, is not modelled). */
  datatype DataRow = DataRow(
    provider: string,
    totalCalls: nat,
    successfulCalls: nat,
    failedCalls: nat,
    avgDuration: int,
    timestamps: seq<int>)

  function DataRowOf(p: string, d: ProviderData): DataRow
  {
    DataRow(p, d.totalCalls, d.successfulCalls, d.failedCalls, RoundedMean(d.totalDuration, d.totalCalls), d.timestamps)
  }

  function TotalCallsOfDataRow(r: DataRow): int
  {
    r.totalCalls
  }

  function ProvidersOfDataRows(rows: seq<DataRow>): (ps: seq<string>)
    ensures |ps| == |rows| && forall i :: 0 <= i < |rows| ==> ps[i] == rows[i].provider
  {
    if |rows| == 0 then [] else ProvidersOfDataRows(rows[..|rows| - 1]) + [rows[|rows| - 1].provider]
  }

  /** `rows` is what the formatting of the grouped `events` yields. */
  ghost predicate DataRows(rows: seq<DataRow>, events: seq<StoredEvent>)
  {
    var ps := Dicts.Distinct(Named(events));
    |rows| == |ps| &&
    (forall i :: 0 <= i < |rows| ==> rows[i] == DataRowOf(ps[i], DataOf(CallsOf(events, ps[i])))) &&
    SumOf(rows, TotalCallsOfDataRow) == |Named(events)|
  }

  /**
   * `Object.entries(providerData).map(...)` after the grouping loop: one row
   * per provider, in order of first appearance.
   */
  method FormatProviderData(events: seq<StoredEvent>) returns (rows: seq<DataRow>)
    ensures DataRows(rows, events)
  {
    var providerData := GroupProviderData(events);
    rows := MapEntries(providerData.keys, providerData.vals, DataRowOf);
    SumOfMapEntries(providerData.keys, providerData.vals, DataRowOf, TotalCallsOfDataRow, TotalCallsOfData);
  }

  /**
   * What the rows mean: each provider appears once, exactly the providers
   * named by some event appear, each row's successes and failures add up to
   * its calls, which are its provider's events and at least one, with their
   * timestamps in input order; the average duration is the total duration
   * over the calls rounded to the nearest integer; the calls of all rows add
   * up to the number of events with a provider.
   */
  lemma DataRowsFacts(rows: seq<DataRow>, events: seq<StoredEvent>)
    requires DataRows(rows, events)
    ensures forall i, j :: 0 <= i < j < |rows| ==> rows[i].provider != rows[j].provider
    ensures forall p :: p in ProvidersOfDataRows(rows) <==> exists i :: 0 <= i < |events| && CallOf(events[i], p)
    ensures forall i :: 0 <= i < |rows| ==>
      var calls := CallsOf(events, rows[i].provider);
      && rows[i].successfulCalls + rows[i].failedCalls == rows[i].totalCalls == |calls| == |rows[i].timestamps| >= 1
      && (forall k :: 0 <= k < |calls| ==> rows[i].timestamps[k] == calls[k].timestamp)
      && 2 * |calls| * rows[i].avgDuration - |calls| <= 2 * DurationTotal(calls) < 2 * |calls| * rows[i].avgDuration + |calls|
    ensures SumOf(rows, TotalCallsOfDataRow) == |Named(events)|
  {
    var ps := Dicts.Distinct(Named(events));
    DistinctOrder(Named(events));
    assert ProvidersOfDataRows(rows) == ps;
    forall p ensures p in ps <==> exists i :: 0 <= i < |events| && CallOf(events[i], p) {
      DistinctMembers(Named(events), p);
      NamedMembers(events, p);
    }
    forall i | 0 <= i < |rows|
      ensures var calls := CallsOf(events, rows[i].provider);
        && rows[i].successfulCalls + rows[i].failedCalls == rows[i].totalCalls == |calls| == |rows[i].timestamps| >= 1
        && (forall k :: 0 <= k < |calls| ==> rows[i].timestamps[k] == calls[k].timestamp)
    {
      var p := ps[i];
      CallsPartition(CallsOf(events, p));
      DistinctMembers(Named(events), p);
      CallsOfCount(events, p);
      OccurrencesPositive(Named(events), p);
    }
  }

  // ---------------------------------------------------------------------------
  // `formattedStats`: one row per entry of `providerStats`

  /** A row of `providerStats` (the success rate, a float, is not modelled). */
  datatype StatsRow = StatsRow(provider: string, totalCalls: nat, avgDuration: int)

  function StatsRowOf(p: string, s: ProviderStats): StatsRow
  {
    StatsRow(p, s.totalCalls, RoundedMean(s.totalDuration, s.totalCalls))
  }

  function TotalCallsOfStatsRow(r: StatsRow): int
  {
    r.totalCalls
  }

  function ProvidersOfStatsRows(rows: seq<StatsRow>): (ps: seq<string>)
    ensures |ps| == |rows| && forall i :: 0 <= i < |rows| ==> ps[i] == rows[i].provider
  {
    if |rows| == 0 then [] else ProvidersOfStatsRows(rows[..|rows| - 1]) + [rows[|rows| - 1].provider]
  }

  ghost predicate StatsRows(rows: seq<StatsRow>, events: seq<StoredEvent>)
  {
    var ps := Dicts.Distinct(Named(events));
    |rows| == |ps| &&
    (forall i :: 0 <= i < |rows| ==> rows[i] == StatsRowOf(ps[i], StatsOf(CallsOf(events, ps[i])))) &&
    SumOf(rows, TotalCallsOfStatsRow) == |Named(events)|
  }

  /** `Object.entries(providerStats).map(...)` after the grouping loop. */
  method FormatProviderStats(events: seq<StoredEvent>) returns (rows: seq<StatsRow>)
    ensures StatsRows(rows, events)
  {
    var providerStats := GroupProviderStats(events);
    rows := MapEntries(providerStats.keys, providerStats.vals, StatsRowOf);
    SumOfMapEntries(providerStats.keys, providerStats.vals, StatsRowOf, TotalCallsOfStatsRow, TotalCallsOfStats);
  }

  /**
   * What the rows mean: each provider appears once, exactly the providers
   * named by some event appear, each row counts its provider's events (at
   * least one), its average duration is their total duration over the calls,
   * rounded, and the calls of all rows add up to the events with a provider.
   */
  lemma StatsRowsFacts(rows: seq<StatsRow>, events: seq<StoredEvent>)
    requires StatsRows(rows, events)
    ensures forall i, j :: 0 <= i < j < |rows| ==> rows[i].provider != rows[j].provider
    ensures forall p :: p in ProvidersOfStatsRows(rows) <==> exists i :: 0 <= i < |events| && CallOf(events[i], p)
    ensures forall i :: 0 <= i < |rows| ==>
      var calls := CallsOf(events, rows[i].provider);
      && rows[i].totalCalls == |calls| >= 1
      && 2 * |calls| * rows[i].avgDuration - |calls| <= 2 * DurationTotal(calls) < 2 * |calls| * rows[i].avgDuration + |calls|
    ensures SumOf(rows, TotalCallsOfStatsRow) == |Named(events)|
  {
    var ps := Dicts.Distinct(Named(events));
    DistinctOrder(Named(events));
    assert ProvidersOfStatsRows(rows) == ps;
    forall p ensures p in ps <==> exists i :: 0 <= i < |events| && CallOf(events[i], p) {
      DistinctMembers(Named(events), p);
      NamedMembers(events, p);
    }
    forall i | 0 <= i < |rows|
      ensures |CallsOf(events, rows[i].provider)| >= 1
    {
      var p := ps[i];
      DistinctMembers(Named(events), p);
      CallsOfCount(events, p);
      OccurrencesPositive(Named(events), p);
    }
  }
}
