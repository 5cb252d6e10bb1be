/**
 * The AI service: a cooldown map of rate-limited providers and
 * `getChatResponse`, which either calls one pinned provider or walks a fixed
 * priority list, skipping unconfigured and rate-limited providers and
 * stopping at the first success.
 *
 * The class `AIService` is the imperative model; the functions `ChatRun`,
 * `ExplicitRun` and `AutoWalk` state what one call does, and the lemmas
 * below them prove what the service promises about it.
 */
module AiService {
  import opened Wrappers
  import opened Strings
  import opened Providers
  import opened Adapters
  import opened Seqs

  /** `RATE_LIMIT_COOLDOWN`: five minutes, in milliseconds. */
  const RateLimitCooldown: int := 5 * 60 * 1000

  /** `rateLimitedProviders`: provider name to the `Date.now()` of its last rate limit. */
  type Cooldowns = map<string, int>

  /** A provider is suppressed when it has a non-zero entry no older than the cooldown. */
  predicate Suppressed(m: Cooldowns, key: string, now: int)
  {
    key in m && m[key] != 0 && now - m[key] <= RateLimitCooldown
  }

  /** The answer of `isRateLimited` and the map it leaves behind. */
  datatype Check = Check(limited: bool, cooldowns: Cooldowns)

  /** `isRateLimited(key)` at time `now`: an expired entry is deleted on the way. */
  function CheckRateLimit(m: Cooldowns, key: string, now: int): Check
  {
    if key !in m || m[key] == 0 then Check(false, m)
    else if now - m[key] > RateLimitCooldown then Check(false, m - {key})
    else Check(true, m)
  }

  /** The answer is `Suppressed`; only an expired entry for `key` is removed, nothing else changes. */
  lemma CheckRateLimitMeaning(m: Cooldowns, key: string, now: int)
    ensures CheckRateLimit(m, key, now).limited == Suppressed(m, key, now)
    ensures forall k :: k != key ==>
      (k in CheckRateLimit(m, key, now).cooldowns <==> k in m) &&
      (k in m ==> CheckRateLimit(m, key, now).cooldowns[k] == m[k])
    ensures key in CheckRateLimit(m, key, now).cooldowns <==>
      key in m && (m[key] == 0 || now - m[key] <= RateLimitCooldown)
    ensures key in CheckRateLimit(m, key, now).cooldowns ==> CheckRateLimit(m, key, now).cooldowns[key] == m[key]
  {
  }

  /**
   * After `markRateLimited(key)` at `t0`, the provider is suppressed exactly
   * while `now - t0 <= RateLimitCooldown`; once the window has passed, the
   * check answers false and deletes the entry. A mark at time 0 is read as
   * no entry at all.
   */
  lemma CooldownWindow(m: Cooldowns, key: string, t0: int, now: int)
    ensures t0 != 0 ==> (CheckRateLimit(m[key := t0], key, now).limited <==> now - t0 <= RateLimitCooldown)
    ensures t0 != 0 && t0 <= now <= t0 + RateLimitCooldown ==> CheckRateLimit(m[key := t0], key, now).limited
    ensures t0 != 0 && now > t0 + RateLimitCooldown ==>
      CheckRateLimit(m[key := t0], key, now) == Check(false, m[key := t0] - {key})
    ensures t0 == 0 ==> CheckRateLimit(m[key := t0], key, now) == Check(false, m[key := t0])
  {
  }

  // ---------------------------------------------------------------------------
  // Requests, responses and the remote world

  datatype ChatRequest = ChatRequest(message: string, provider: Option<ProviderId>)

  datatype ChatResponse = ChatResponse(content: string, provider: string, success: bool, error: Option<string>)

  /** What each backend would answer to this request. */
  datatype Network = Network(
    gemini: Reply,
    groq: Reply,
    openRouter: Reply,
    openAI: Reply,
    huggingFace: string -> Reply)

  /** The adapter `getChatResponse` dispatches to for `p`. */
  function AdapterOutcome(p: ProviderId, net: Network): Outcome
  {
    match p
    case Gemini => GeminiOutcome(net.gemini)
    case Groq => GroqOutcome(net.groq)
    case OpenRouter => OpenRouterOutcome(net.openRouter)
    case HuggingFace => HuggingFaceOutcome(net.huggingFace)
    case OpenAI => OpenAIOutcome(net.openAI)
  }

  /**
   * What the orchestrator sees of one request's world: the configuration of
   * each provider, what each adapter comes to, and whether the Gemini adapter
   * marked itself rate-limited on the way.
   */
  datatype World = World(
    config: ProviderId -> ProviderConfig,
    outcome: ProviderId -> Outcome,
    geminiMarked: bool)

  /** The world of the real registry under `env` and the real adapters under `net`. */
  function WorldOf(env: Env, net: Network): World
  {
    World(p => Config(env, p), p => AdapterOutcome(p, net), GeminiMarks(net.gemini))
  }

  /** The adapter's own effect on the cooldown map: only Gemini marks itself, on a 429. */
  function AdapterEffect(w: World, p: ProviderId, m: Cooldowns, now: int): Cooldowns
  {
    if p == Gemini && w.geminiMarked then m[Name(Gemini) := now] else m
  }

  /** Automatic mode's fixed order. */
  const Priority: seq<ProviderId> := [Groq, Gemini, OpenRouter, HuggingFace, OpenAI]

  const AllProvidersFailedText :=
    "All AI providers failed or "
    + "are unavailable. Please check "
    + "your API keys."

  const NoProviderResponse := ChatResponse("", "None", false, Some(AllProvidersFailedText))

  /** `errorMessage.includes("rate limit") || errorMessage.includes("429")`. */
  predicate IsRateLimitError(message: string)
  {
    Contains(message, RateLimitPhrase) || Contains(message, "429")
  }

  /** What one call did: its response, the cooldown map afterwards and the providers whose adapters ran. */
  datatype Run = Run(response: ChatResponse, cooldowns: Cooldowns, invoked: seq<ProviderId>)

  function Prepend(ps: seq<ProviderId>, r: Run): Run
  {
    Run(r.response, r.cooldowns, ps + r.invoked)
  }

  lemma PrependTwice(a: seq<ProviderId>, b: seq<ProviderId>, r: Run)
    ensures Prepend(a, Prepend(b, r)) == Prepend(a + b, r)
  {
    assert a + (b + r.invoked) == a + b + r.invoked;
  }

  /** Explicit mode: only the pinned provider, and no fallback. */
  function ExplicitRun(w: World, p: ProviderId, m: Cooldowns, now: int): Run
  {
    var cfg := w.config(p);
    if !IsConfigured(cfg) then
      Run(ChatResponse("", cfg.name, false, Some(cfg.displayName + " is not available")), m, [])
    else
      var m' := AdapterEffect(w, p, m, now);
      match w.outcome(p)
      case Success(t) => Run(ChatResponse(t, cfg.displayName, true, None), m', [p])
      case Failure(e) => Run(ChatResponse("", cfg.displayName, false, Some(e)), m', [p])
  }

  /** What one candidate of automatic mode comes to: skipped, answered, or failed and passed over. */
  datatype Step = Skipped(cooldowns: Cooldowns) | Succeeded(response: ChatResponse, cooldowns: Cooldowns) | Failed(cooldowns: Cooldowns)

  /**
   * One candidate `p` of automatic mode: an unconfigured or rate-limited
   * provider is skipped without running its adapter; a failure whose message
   * reads as a rate limit marks the provider.
   */
  function AutoStep(w: World, p: ProviderId, m: Cooldowns, now: int): Step
  {
    var cfg := w.config(p);
    if !IsConfigured(cfg) then Skipped(m)
    else
      var c := CheckRateLimit(m, Name(p), now);
      if c.limited then Skipped(c.cooldowns)
      else
        var m2 := AdapterEffect(w, p, c.cooldowns, now);
        match w.outcome(p)
        case Success(t) => Succeeded(ChatResponse(t, cfg.displayName, true, None), m2)
        case Failure(e) => Failed(if IsRateLimitError(e) then m2[Name(p) := now] else m2)
  }

  /** Automatic mode over the candidates `cands`, in order. */
  function AutoWalk(w: World, cands: seq<ProviderId>, m: Cooldowns, now: int): Run
    decreases |cands|
  {
    if |cands| == 0 then Run(NoProviderResponse, m, [])
    else
      match AutoStep(w, cands[0], m, now)
      case Skipped(m') => AutoWalk(w, cands[1..], m', now)
      case Succeeded(r, m') => Run(r, m', [cands[0]])
      case Failed(m') => Prepend([cands[0]], AutoWalk(w, cands[1..], m', now))
  }

  /** The walk from candidate `i` on, by what candidate `i` comes to. */
  lemma AutoWalkFrom(w: World, cands: seq<ProviderId>, i: nat, m: Cooldowns, now: int)
    requires i < |cands|
    ensures var step := AutoStep(w, cands[i], m, now);
      && (step.Succeeded? ==> AutoWalk(w, cands[i..], m, now) == Run(step.response, step.cooldowns, [cands[i]]))
      && (step.Failed? ==>
            AutoWalk(w, cands[i..], m, now) == Prepend([cands[i]], AutoWalk(w, cands[i + 1..], step.cooldowns, now)))
      && (step.Skipped? ==> AutoWalk(w, cands[i..], m, now) == AutoWalk(w, cands[i + 1..], step.cooldowns, now))
  {
    SuffixStep(cands, i);
  }

  /**
   * One iteration of the fallback loop, in terms of the walk: `m0` is the map
   * before candidate `i`, `m1` the map after it, and `invoked` the adapters
   * run before it.
   */
  lemma FallbackStep(w: World, cands: seq<ProviderId>, i: nat, start: Cooldowns, m0: Cooldowns, m1: Cooldowns,
                     now: int, invoked: seq<ProviderId>, answer: Option<ChatResponse>, ran: bool)
    requires i < |cands|
    requires AutoWalk(w, cands, start, now) == Prepend(invoked, AutoWalk(w, cands[i..], m0, now))
    requires AutoStep(w, cands[i], m0, now) ==
      if answer.Some? then Succeeded(answer.value, m1) else if ran then Failed(m1) else Skipped(m1)
    ensures answer.Some? ==> AutoWalk(w, cands, start, now) == Run(answer.value, m1, invoked + [cands[i]])
    ensures answer.None? ==>
      AutoWalk(w, cands, start, now) ==
        Prepend(if ran then invoked + [cands[i]] else invoked, AutoWalk(w, cands[i + 1..], m1, now))
  {
    AutoWalkFrom(w, cands, i, m0, now);
    if answer.None? && ran {
      PrependTwice(invoked, [cands[i]], AutoWalk(w, cands[i + 1..], m1, now));
    }
  }

  /** Before the fallback loop nothing has been invoked and the whole walk is ahead. */
  lemma FallbackStart(w: World, cands: seq<ProviderId>, m: Cooldowns, now: int)
    ensures AutoWalk(w, cands, m, now) == Prepend([], AutoWalk(w, cands[0..], m, now))
  {
    assert cands[0..] == cands;
  }

  /** After the fallback loop every candidate has been passed over: the walk ends with no provider. */
  lemma FallbackEnd(w: World, cands: seq<ProviderId>, start: Cooldowns, m: Cooldowns, now: int, invoked: seq<ProviderId>)
    requires AutoWalk(w, cands, start, now) == Prepend(invoked, AutoWalk(w, cands[|cands|..], m, now))
    ensures AutoWalk(w, cands, start, now) == Run(NoProviderResponse, m, invoked)
  {
    assert cands[|cands|..] == [];
    assert invoked + [] == invoked;
  }

  /** `getChatResponse(request)` with the map `m` at time `now`. */
  function ChatRun(env: Env, request: ChatRequest, net: Network, m: Cooldowns, now: int): Run
  {
    match request.provider
    case Some(p) => ExplicitRun(WorldOf(env, net), p, m, now)
    case None => AutoWalk(WorldOf(env, net), Priority, m, now)
  }

  // ---------------------------------------------------------------------------
  // The service object

  class AIService {
    /** The build environment `AI_PROVIDERS` is read from. */
    const env: Env
    var rateLimitedProviders: Cooldowns

    constructor(env: Env)
      ensures this.env == env && rateLimitedProviders == map[]
    {
      this.env := env;
      rateLimitedProviders := map[];
    }

    /** `isRateLimited(provider)` at `now`. */
    method IsRateLimited(provider: string, now: int) returns (limited: bool)
      modifies this
      ensures limited == Suppressed(old(rateLimitedProviders), provider, now)
      ensures Check(limited, rateLimitedProviders) == CheckRateLimit(old(rateLimitedProviders), provider, now)
    {
      if provider !in rateLimitedProviders || rateLimitedProviders[provider] == 0 {
        return false;
      }
      var timeSinceLimit := now - rateLimitedProviders[provider];
      if timeSinceLimit > RateLimitCooldown {
        rateLimitedProviders := rateLimitedProviders - {provider};
        return false;
      }
      return true;
    }

    /** `markRateLimited(provider)` at `now`: an upsert that leaves every other entry alone. */
    method MarkRateLimited(provider: string, now: int)
      modifies this
      ensures rateLimitedProviders == old(rateLimitedProviders)[provider := now]
      ensures provider in rateLimitedProviders && rateLimitedProviders[provider] == now
      ensures forall k :: k != provider ==>
        (k in rateLimitedProviders <==> k in old(rateLimitedProviders)) &&
        (k in rateLimitedProviders ==> rateLimitedProviders[k] == old(rateLimitedProviders)[k])
    {
      rateLimitedProviders := rateLimitedProviders[provider := now];
    }

    /** `callGeminiAPI`: a 429 marks "gemini" before the error is thrown. */
    method CallGemini(reply: Reply, now: int) returns (out: Outcome)
      modifies this
      ensures out == GeminiOutcome(reply)
      ensures rateLimitedProviders ==
        if GeminiMarks(reply) then old(rateLimitedProviders)[Name(Gemini) := now] else old(rateLimitedProviders)
    {
      if reply.Http? && !IsOk(reply.status) && reply.status == 429 {
        MarkRateLimited("gemini", now);
      }
      out := GeminiOutcome(reply);
    }

    /**
     * `callHuggingFaceAPI`: the models are tried in order; before each
     * iteration `failedModels` is exactly the models already tried.
     */
    method CallHuggingFace(replies: string -> Reply) returns (out: Outcome, ghost tried: seq<string>)
      ensures out == HuggingFaceOutcome(replies)
      ensures Walk(out, tried) == HuggingFaceFrom(replies, 0)
    {
      var failedModels: seq<string> := [];
      tried := [];
      var i := 0;
      while i < |HuggingFaceModels|
        invariant 0 <= i <= |HuggingFaceModels|
        invariant failedModels == HuggingFaceModels[..i] && tried == failedModels
        invariant HuggingFaceFrom(replies, i) == HuggingFaceFrom(replies, 0)
      {
        var model := HuggingFaceModels[i];
        PrefixStep(HuggingFaceModels, i);
        tried := tried + [model];
        var reply := replies(model);
        HuggingFaceStep(replies, i);
        if reply.Http? && IsOk(reply.status) && reply.body.Parsed? {
          if model == FallbackModel {
            return Success(DegradedNotice(failedModels)), tried;
          }
          var content := reply.body.completion;
          if content.Some? && content.value != "" {
            return Success(Trim(content.value)), tried;
          }
          return Success(SorryText), tried;
        }
        failedModels := failedModels + [model];
        i := i + 1;
      }
      assert failedModels == HuggingFaceModels;
      out := Failure(AllModelsFailedText(failedModels));
    }

    /** The `switch` over the provider: runs its adapter. */
    method Invoke(p: ProviderId, net: Network, now: int) returns (out: Outcome)
      modifies this
      ensures out == AdapterOutcome(p, net)
      ensures rateLimitedProviders == AdapterEffect(WorldOf(env, net), p, old(rateLimitedProviders), now)
    {
      match p
      case Gemini =>
        out := CallGemini(net.gemini, now);
      case Groq =>
        out := GroqOutcome(net.groq);
      case OpenRouter =>
        out := OpenRouterOutcome(net.openRouter);
      case HuggingFace =>
        ghost var tried;
        out, tried := CallHuggingFace(net.huggingFace);
      case OpenAI =>
        out := OpenAIOutcome(net.openAI);
    }

    /** `getChatResponse(request)`, with `now` the time of the call and `invoked` the adapters it ran. */
    method GetChatResponse(request: ChatRequest, net: Network, now: int)
      returns (response: ChatResponse, ghost invoked: seq<ProviderId>)
      modifies this
      ensures Run(response, rateLimitedProviders, invoked) ==
        ChatRun(env, request, net, old(rateLimitedProviders), now)
      ensures request.provider.Some? ==> |invoked| <= 1
    {
      if request.provider.Some? {
        response, invoked := GetPinnedResponse(request.provider.value, net, now);
      } else {
        response, invoked := GetAutoResponse(net, now);
      }
    }

    /** The branch of `getChatResponse` for a request that names its provider. */
    method GetPinnedResponse(p: ProviderId, net: Network, now: int)
      returns (response: ChatResponse, ghost invoked: seq<ProviderId>)
      modifies this
      ensures Run(response, rateLimitedProviders, invoked) ==
        ExplicitRun(WorldOf(env, net), p, old(rateLimitedProviders), now)
      ensures |invoked| <= 1
    {
      var cfg := GetProvider(env, p);
      if !cfg.available || cfg.apiKey == "" {
        return ChatResponse("", cfg.name, false, Some(cfg.displayName + " is not available")), [];
      }
      invoked := [p];
      var out := Invoke(p, net, now);
      match out
      case Success(t) =>
        response := ChatResponse(t, cfg.displayName, true, None);
      case Failure(e) =>
        response := ChatResponse("", cfg.displayName, false, Some(e));
    }

    /** One iteration of the fallback loop: `answer` is the response to return, if any; `ran` says whether the adapter ran. */
    method TryProvider(p: ProviderId, net: Network, now: int) returns (answer: Option<ChatResponse>, ghost ran: bool)
      modifies this
      ensures AutoStep(WorldOf(env, net), p, old(rateLimitedProviders), now) ==
        if answer.Some? then Succeeded(answer.value, rateLimitedProviders)
        else if ran then Failed(rateLimitedProviders)
        else Skipped(rateLimitedProviders)
    {
      var cfg := Config(env, p);
      if !cfg.available || cfg.apiKey == "" {
        return None, false;
      }
      var limited := IsRateLimited(Name(p), now);
      if limited {
        return None, false;
      }
      ran := true;
      var out := Invoke(p, net, now);
      match out
      case Success(t) =>
        answer := Some(ChatResponse(t, cfg.displayName, true, None));
      case Failure(e) =>
        if IsRateLimitError(e) {
          MarkRateLimited(Name(p), now);
        }
        answer := None;
    }

    /** The automatic-fallback branch of `getChatResponse`. */
    method GetAutoResponse(net: Network, now: int)
      returns (response: ChatResponse, ghost invoked: seq<ProviderId>)
      modifies this
      ensures Run(response, rateLimitedProviders, invoked) ==
        AutoWalk(WorldOf(env, net), Priority, old(rateLimitedProviders), now)
    {
      response, invoked := Fallback(Priority, net, now);
    }

    /** The `for` loop over the candidates `cands`, returning at the first success. */
    method Fallback(cands: seq<ProviderId>, net: Network, now: int)
      returns (response: ChatResponse, ghost invoked: seq<ProviderId>)
      modifies this
      ensures Run(response, rateLimitedProviders, invoked) ==
        AutoWalk(WorldOf(env, net), cands, old(rateLimitedProviders), now)
    {
      ghost var w := WorldOf(env, net);
      invoked := [];
      FallbackStart(w, cands, rateLimitedProviders, now);
      var i := 0;
      while i < |cands|
        invariant 0 <= i <= |cands|
        invariant AutoWalk(w, cands, old(rateLimitedProviders), now) ==
          Prepend(invoked, AutoWalk(w, cands[i..], rateLimitedProviders, now))
      {
        var p := cands[i];
        ghost var m0 := rateLimitedProviders;
        var answer, ran := TryProvider(p, net, now);
        FallbackStep(w, cands, i, old(rateLimitedProviders), m0, rateLimitedProviders, now, invoked, answer, ran);
        if answer.Some? {
          invoked := invoked + [p];
          return answer.value, invoked;
        }
        if ran {
          invoked := invoked + [p];
        }
        i := i + 1;
      }
      FallbackEnd(w, cands, old(rateLimitedProviders), rateLimitedProviders, now, invoked);
      response := NoProviderResponse;
    }
  }
}
