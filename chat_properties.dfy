/**
 * What `getChatResponse` promises, proved about the functions that specify
 * it. Automatic mode is compared with a stateless reference: filter the
 * candidates down to the configured, not-suppressed ones, then take them up
 * to the first whose adapter answers.
 */
module ChatProperties {
  import opened Wrappers
  import opened Strings
  import opened Providers
  import opened Adapters
  import opened AiService

  predicate Distinct(ps: seq<ProviderId>)
  {
    forall i, j :: 0 <= i < j < |ps| ==> ps[i] != ps[j]
  }

  /** A candidate automatic mode will call: configured and not inside its cooldown. */
  predicate Eligible(w: World, p: ProviderId, m: Cooldowns, now: int)
  {
    IsConfigured(w.config(p)) && !Suppressed(m, Name(p), now)
  }

  /** The eligible candidates, in the order of `cands`. */
  function Candidates(w: World, cands: seq<ProviderId>, m: Cooldowns, now: int): (r: seq<ProviderId>)
    ensures forall p :: p in r <==> p in cands && Eligible(w, p, m, now)
  {
    if |cands| == 0 then []
    else (if Eligible(w, cands[0], m, now) then [cands[0]] else []) + Candidates(w, cands[1..], m, now)
  }

  /** The adapter of `p` answers. */
  predicate Answers(w: World, p: ProviderId)
  {
    w.outcome(p).Success?
  }

  /** The providers of `ps` up to and including the first that answers. */
  function UpToFirstAnswer(w: World, ps: seq<ProviderId>): seq<ProviderId>
  {
    if |ps| == 0 then []
    else if Answers(w, ps[0]) then [ps[0]]
    else [ps[0]] + UpToFirstAnswer(w, ps[1..])
  }

  /** The response built from the first provider of `ps` that answers. */
  function FirstAnswer(w: World, ps: seq<ProviderId>): ChatResponse
  {
    if |ps| == 0 then NoProviderResponse
    else if Answers(w, ps[0]) then
      ChatResponse(w.outcome(ps[0]).text, w.config(ps[0]).displayName, true, None)
    else FirstAnswer(w, ps[1..])
  }

  /** Maps `m1` and `m2` hold the same entry for `key`. */
  predicate SameEntry(m1: Cooldowns, m2: Cooldowns, key: string)
  {
    (key in m1 <==> key in m2) && (key in m1 ==> m1[key] == m2[key])
  }

  // ---------------------------------------------------------------------------
  // The reference definitions

  /**
   * The reference stops at the first answer: it is a prefix of the
   * candidates, everything before its last element failed, and the response
   * is a success exactly when some candidate answers.
   */
  lemma {:induction false} FirstAnswerFacts(w: World, ps: seq<ProviderId>)
    ensures UpToFirstAnswer(w, ps) <= ps
    ensures forall k :: 0 <= k < |UpToFirstAnswer(w, ps)| - 1 ==> !Answers(w, UpToFirstAnswer(w, ps)[k])
    ensures FirstAnswer(w, ps).success <==> exists q :: q in ps && Answers(w, q)
    ensures FirstAnswer(w, ps).success ==>
      var up := UpToFirstAnswer(w, ps);
      |up| > 0 && Answers(w, up[|up| - 1]) &&
      FirstAnswer(w, ps) ==
        ChatResponse(w.outcome(up[|up| - 1]).text, w.config(up[|up| - 1]).displayName, true, None)
    ensures !FirstAnswer(w, ps).success ==>
      UpToFirstAnswer(w, ps) == ps && FirstAnswer(w, ps) == NoProviderResponse
  {
    if |ps| > 0 && !Answers(w, ps[0]) {
      FirstAnswerFacts(w, ps[1..]);
      var up := UpToFirstAnswer(w, ps);
      assert up == [ps[0]] + UpToFirstAnswer(w, ps[1..]);
      assert forall k :: 1 <= k < |up| ==> up[k] == UpToFirstAnswer(w, ps[1..])[k - 1];
      if exists q :: q in ps && Answers(w, q) {
        var q :| q in ps && Answers(w, q);
        assert q in ps[1..];
      }
      if !FirstAnswer(w, ps).success {
        assert ps == [ps[0]] + ps[1..];
      }
    }
  }

  /** The eligible candidates appear in `cands`' order. */
  lemma {:induction false} CandidatesSubsequence(w: World, cands: seq<ProviderId>, m: Cooldowns, now: int)
    ensures IsSubsequence(Candidates(w, cands, m, now), cands)
  {
    if |cands| > 0 {
      CandidatesSubsequence(w, cands[1..], m, now);
      var r := Candidates(w, cands, m, now);
      if Eligible(w, cands[0], m, now) {
        assert r[0] == cands[0] && r[1..] == Candidates(w, cands[1..], m, now);
      } else {
        assert r == Candidates(w, cands[1..], m, now);
      }
    }
  }

  /** Maps that agree on the entry of every candidate give the same eligible list. */
  lemma {:induction false} CandidatesAgree(w: World, cands: seq<ProviderId>, m1: Cooldowns, m2: Cooldowns, now: int)
    requires forall q :: q in cands ==> SameEntry(m1, m2, Name(q))
    ensures Candidates(w, cands, m1, now) == Candidates(w, cands, m2, now)
  {
    if |cands| > 0 {
      assert SameEntry(m1, m2, Name(cands[0]));
      CandidatesAgree(w, cands[1..], m1, m2, now);
    }
  }

  // ---------------------------------------------------------------------------
  // One step of automatic mode

  /**
   * The Gemini adapter only marks itself when it throws the rate-limit error;
   * this holds of the real adapters.
   */
  predicate Coherent(w: World)
  {
    w.geminiMarked ==> w.outcome(Gemini).Failure? && Contains(w.outcome(Gemini).message, RateLimitPhrase)
  }

  lemma WorldOfCoherent(env: Env, net: Network)
    ensures Coherent(WorldOf(env, net))
  {
    if GeminiMarks(net.gemini) {
      Gemini429(net.gemini);
    }
  }

  /** A step touches only the entry of its own provider, and a skip touches nothing. */
  lemma StepFrame(w: World, p: ProviderId, m: Cooldowns, now: int)
    ensures forall k :: k != Name(p) ==> SameEntry(AutoStep(w, p, m, now).cooldowns, m, k)
    ensures AutoStep(w, p, m, now).Skipped? ==> AutoStep(w, p, m, now).cooldowns == m
  {
  }

  /** A step runs the adapter exactly when the provider is eligible. */
  lemma StepEligible(w: World, p: ProviderId, m: Cooldowns, now: int)
    ensures !AutoStep(w, p, m, now).Skipped? <==> Eligible(w, p, m, now)
    ensures AutoStep(w, p, m, now).Succeeded? <==> Eligible(w, p, m, now) && Answers(w, p)
    ensures AutoStep(w, p, m, now).Succeeded? ==>
      AutoStep(w, p, m, now).response == ChatResponse(w.outcome(p).text, w.config(p).displayName, true, None)
  {
    CheckRateLimitMeaning(m, Name(p), now);
  }

  /**
   * A failed step whose message reads as a rate limit leaves the provider
   * marked at `now`; any other failure leaves it outside its cooldown.
   */
  lemma StepFailureMarks(w: World, p: ProviderId, m: Cooldowns, now: int)
    requires Coherent(w)
    requires AutoStep(w, p, m, now).Failed?
    ensures var m' := AutoStep(w, p, m, now).cooldowns;
      if IsRateLimitError(w.outcome(p).message) then Name(p) in m' && m'[Name(p)] == now
      else !Suppressed(m', Name(p), now)
  {
    CheckRateLimitMeaning(m, Name(p), now);
  }

  // ---------------------------------------------------------------------------
  // Automatic mode

  /**
   * Over distinct candidates, automatic mode runs exactly the reference: the
   * adapters invoked are the eligible candidates up to the first answer, and
   * the response is that answer or the fixed "all failed" response.
   */
  lemma {:induction false} AutoWalkIsReference(w: World, cands: seq<ProviderId>, m: Cooldowns, now: int)
    requires Distinct(cands)
    ensures AutoWalk(w, cands, m, now).invoked == UpToFirstAnswer(w, Candidates(w, cands, m, now))
    ensures AutoWalk(w, cands, m, now).response == FirstAnswer(w, Candidates(w, cands, m, now))
    decreases |cands|
  {
    if |cands| > 0 {
      var p, rest := cands[0], cands[1..];
      var step := AutoStep(w, p, m, now);
      StepFrame(w, p, m, now);
      StepEligible(w, p, m, now);
      assert Distinct(rest);
      forall q | q in rest
        ensures SameEntry(step.cooldowns, m, Name(q))
      {
        NameInjective(q, p);
      }
      CandidatesAgree(w, rest, step.cooldowns, m, now);
      AutoWalkIsReference(w, rest, step.cooldowns, now);
      var tail := Candidates(w, rest, m, now);
      match step
      case Skipped(m') =>
        assert Candidates(w, cands, m, now) == tail;
      case Succeeded(r, m') =>
        assert Candidates(w, cands, m, now) == [p] + tail;
      case Failed(m') =>
        assert Candidates(w, cands, m, now) == [p] + tail;
        assert ([p] + tail)[1..] == tail;
    }
  }

  /**
   * The only entries of the cooldown map a run changes are those of the
   * providers whose adapters it ran; every other key keeps its entry.
   */
  lemma {:induction false} AutoWalkFrame(w: World, cands: seq<ProviderId>, m: Cooldowns, now: int, k: string)
    requires forall q :: q in AutoWalk(w, cands, m, now).invoked ==> k != Name(q)
    ensures SameEntry(AutoWalk(w, cands, m, now).cooldowns, m, k)
    decreases |cands|
  {
    if |cands| > 0 {
      var p := cands[0];
      var step := AutoStep(w, p, m, now);
      StepFrame(w, p, m, now);
      match step
      case Skipped(m') =>
        AutoWalkFrame(w, cands[1..], m', now, k);
      case Succeeded(_, _) =>
      case Failed(m') =>
        AutoWalkFrame(w, cands[1..], m', now, k);
    }
  }

  /**
   * After a run over distinct candidates, every invoked provider that failed
   * with a rate-limit message is marked at `now`, and every other invoked
   * failure is outside its cooldown.
   */
  lemma {:induction false} AutoWalkMarks(w: World, cands: seq<ProviderId>, m: Cooldowns, now: int, q: ProviderId)
    requires Coherent(w) && Distinct(cands)
    requires q in AutoWalk(w, cands, m, now).invoked && !Answers(w, q)
    ensures var r := AutoWalk(w, cands, m, now);
      if IsRateLimitError(w.outcome(q).message) then Name(q) in r.cooldowns && r.cooldowns[Name(q)] == now
      else !Suppressed(r.cooldowns, Name(q), now)
    decreases |cands|
  {
    var p, rest := cands[0], cands[1..];
    var step := AutoStep(w, p, m, now);
    assert Distinct(rest);
    StepEligible(w, p, m, now);
    match step
    case Skipped(m') =>
      AutoWalkMarks(w, rest, m', now, q);
    case Succeeded(_, _) =>
    case Failed(m') =>
      var r' := AutoWalk(w, rest, m', now);
      if q == p {
        StepFailureMarks(w, p, m, now);
        forall q' | q' in r'.invoked
          ensures Name(p) != Name(q')
        {
          AutoWalkIsReference(w, rest, m', now);
          FirstAnswerFacts(w, Candidates(w, rest, m', now));
          assert q' in Candidates(w, rest, m', now);
          NameInjective(p, q');
        }
        AutoWalkFrame(w, rest, m', now, Name(p));
      } else {
        AutoWalkMarks(w, rest, m', now, q);
      }
  }

  /** The priority list names every provider once. */
  lemma PriorityDistinct()
    ensures Distinct(Priority) && |Priority| == 5
    ensures forall p: ProviderId :: p in Priority
  {
    forall p: ProviderId
      ensures p in Priority
    {
      match p
      case Groq => assert Priority[0] == p;
      case Gemini => assert Priority[1] == p;
      case OpenRouter => assert Priority[2] == p;
      case HuggingFace => assert Priority[3] == p;
      case OpenAI => assert Priority[4] == p;
    }
  }

  /**
   * Automatic mode, in any world (`ChatRun` walks `WorldOf(env, net)` for a
   * request that names no provider): the adapters run are, in priority order, the eligible
   * providers up to the first that answers; none runs after a success, every
   * one before the last failed, and the response is a success exactly when
   * some eligible provider answers. Otherwise every eligible provider was
   * tried and the fixed "all failed" response comes back.
   */
  lemma AutomaticMode(w: World, m: Cooldowns, now: int)
    ensures var r := AutoWalk(w, Priority, m, now);
      var eligible := Candidates(w, Priority, m, now);
      && IsSubsequence(eligible, Priority)
      && r.invoked <= eligible
      && (forall q :: q in r.invoked ==> Eligible(w, q, m, now))
      && (forall k :: 0 <= k < |r.invoked| - 1 ==> !Answers(w, r.invoked[k]))
      && (r.response.success <==> exists q :: q in eligible && Answers(w, q))
      && (r.response.success ==>
            |r.invoked| > 0 && Answers(w, r.invoked[|r.invoked| - 1]) &&
            r.response.content == w.outcome(r.invoked[|r.invoked| - 1]).text &&
            r.response.provider == w.config(r.invoked[|r.invoked| - 1]).displayName)
      && (!r.response.success ==> r.invoked == eligible && r.response == NoProviderResponse)
  {
    PriorityDistinct();
    AutoWalkIsReference(w, Priority, m, now);
    var eligible := Candidates(w, Priority, m, now);
    FirstAnswerFacts(w, eligible);
    CandidatesSubsequence(w, Priority, m, now);
    var r := AutoWalk(w, Priority, m, now);
    forall q | q in r.invoked
      ensures Eligible(w, q, m, now)
    {
      assert q in eligible;
    }
  }

  /** A provider inside its cooldown, or unconfigured, is never called in automatic mode. */
  lemma AutomaticSkips(env: Env, msg: string, net: Network, m: Cooldowns, now: int, p: ProviderId)
    requires !IsConfigured(Config(env, p)) || Suppressed(m, Name(p), now)
    ensures p !in ChatRun(env, ChatRequest(msg, None), net, m, now).invoked
  {
    AutomaticMode(WorldOf(env, net), m, now);
  }

  /**
   * Failure handling in automatic mode: a failed provider is marked iff its
   * message contains "rate limit" or "429"; entries of providers that were
   * not called are untouched.
   */
  lemma AutomaticCooldowns(env: Env, msg: string, net: Network, m: Cooldowns, now: int, q: ProviderId)
    ensures var r := ChatRun(env, ChatRequest(msg, None), net, m, now);
      && (q in r.invoked && AdapterOutcome(q, net).Failure? ==>
            if IsRateLimitError(AdapterOutcome(q, net).message) then Name(q) in r.cooldowns && r.cooldowns[Name(q)] == now
            else !Suppressed(r.cooldowns, Name(q), now))
      && (q !in r.invoked ==> SameEntry(r.cooldowns, m, Name(q)))
  {
    var w := WorldOf(env, net);
    WorldOfCoherent(env, net);
    PriorityDistinct();
    var r := ChatRun(env, ChatRequest(msg, None), net, m, now);
    if q in r.invoked && !Answers(w, q) {
      AutoWalkMarks(w, Priority, m, now, q);
    }
    if q !in r.invoked {
      forall q' | q' in r.invoked
        ensures Name(q) != Name(q')
      {
        NameInjective(q, q');
      }
      AutoWalkFrame(w, Priority, m, now, Name(q));
    }
  }

  /**
   * Two requests in a row: a provider that failed with a rate-limit message
   * in an automatic request is not called by a second automatic request
   * inside the cooldown window.
   */
  lemma CooldownAcrossRequests(env: Env, first: ChatRequest, net1: Network, m: Cooldowns, t: int,
                               msg: string, net2: Network, t2: int, q: ProviderId)
    requires first.provider.None?
    requires q in ChatRun(env, first, net1, m, t).invoked && AdapterOutcome(q, net1).Failure?
    requires IsRateLimitError(AdapterOutcome(q, net1).message)
    requires t != 0 && t <= t2 <= t + RateLimitCooldown
    ensures q !in ChatRun(env, ChatRequest(msg, None), net2, ChatRun(env, first, net1, m, t).cooldowns, t2).invoked
  {
    AutomaticCooldowns(env, first.message, net1, m, t, q);
    assert ChatRun(env, first, net1, m, t) == ChatRun(env, ChatRequest(first.message, None), net1, m, t);
    AutomaticSkips(env, msg, net2, ChatRun(env, first, net1, m, t).cooldowns, t2, q);
  }

  // ---------------------------------------------------------------------------
  // Explicit mode

  /** A pinned provider that is not configured: no adapter runs and nothing changes. */
  lemma ExplicitUnavailable(env: Env, msg: string, p: ProviderId, net: Network, m: Cooldowns, now: int)
    requires !IsConfigured(Config(env, p))
    ensures ChatRun(env, ChatRequest(msg, Some(p)), net, m, now) ==
      Run(ChatResponse("", Name(p), false, Some(Config(env, p).displayName + " is not available")), m, [])
  {
    assert Config(env, p).name == Name(p);
  }

  /** `ExplicitRun` for a configured provider: its adapter alone runs, and the map plays no part in the response. */
  lemma ExplicitRunConfigured(w: World, p: ProviderId, m: Cooldowns, m2: Cooldowns, now: int)
    requires IsConfigured(w.config(p))
    ensures ExplicitRun(w, p, m, now).invoked == [p]
    ensures ExplicitRun(w, p, m, now).response == ExplicitRun(w, p, m2, now).response
    ensures ExplicitRun(w, p, m, now).response ==
      if w.outcome(p).Success? then ChatResponse(w.outcome(p).text, w.config(p).displayName, true, None)
      else ChatResponse("", w.config(p).displayName, false, Some(w.outcome(p).message))
    ensures ExplicitRun(w, p, m, now).cooldowns == AdapterEffect(w, p, m, now)
  {
  }

  /**
   * A configured pinned provider: only its adapter runs, the cooldown map is
   * not consulted (the response is the same for every map), and the response
   * carries the adapter's text or its error.
   */
  lemma ExplicitConfigured(env: Env, msg: string, p: ProviderId, net: Network, m: Cooldowns, m2: Cooldowns, now: int)
    requires IsConfigured(Config(env, p))
    ensures ChatRun(env, ChatRequest(msg, Some(p)), net, m, now).invoked == [p]
    ensures ChatRun(env, ChatRequest(msg, Some(p)), net, m, now).response ==
      ChatRun(env, ChatRequest(msg, Some(p)), net, m2, now).response
    ensures ChatRun(env, ChatRequest(msg, Some(p)), net, m, now).response ==
      var name := Config(env, p).displayName;
      if AdapterOutcome(p, net).Success? then ChatResponse(AdapterOutcome(p, net).text, name, true, None)
      else ChatResponse("", name, false, Some(AdapterOutcome(p, net).message))
    ensures ChatRun(env, ChatRequest(msg, Some(p)), net, m, now).cooldowns ==
      if p == Gemini && GeminiMarks(net.gemini) then m[Name(Gemini) := now] else m
  {
    var w := WorldOf(env, net);
    assert w.config(p) == Config(env, p) && w.outcome(p) == AdapterOutcome(p, net);
    ExplicitRunConfigured(w, p, m, m2, now);
    assert ChatRun(env, ChatRequest(msg, Some(p)), net, m, now) == ExplicitRun(w, p, m, now);
    assert ChatRun(env, ChatRequest(msg, Some(p)), net, m2, now) == ExplicitRun(w, p, m2, now);
  }

  /** A Gemini 429 marks "gemini" in explicit mode too, with a message naming the rate limit. */
  lemma GeminiMarksWhenPinned(env: Env, msg: string, net: Network, m: Cooldowns, now: int)
    requires IsConfigured(Config(env, Gemini))
    requires net.gemini.Http? && net.gemini.status == 429
    ensures var r := ChatRun(env, ChatRequest(msg, Some(Gemini)), net, m, now);
      r.cooldowns == m["gemini" := now] && !r.response.success &&
      r.response.error.Some? && Contains(r.response.error.value, RateLimitPhrase)
  {
    Gemini429(net.gemini);
    ExplicitConfigured(env, msg, Gemini, net, m, m, now);
  }
}
