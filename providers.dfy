/**
 * The provider registry: the closed set of completion backends, the constant
 * table of their configurations (credentials come from the build
 * environment), the filter of usable providers and the keyed lookup.
 */
module Providers {

  /** `AIProvider`: exactly five backends. */
  datatype ProviderId = OpenAI | Gemini | Groq | HuggingFace | OpenRouter

  /** The string literal of each `AIProvider` member. */
  function Name(p: ProviderId): string
  {
    match p
    case OpenAI => "openai"
    case Gemini => "gemini"
    case Groq => "groq"
    case HuggingFace => "huggingface"
    case OpenRouter => "openrouter"
  }

  /** Different providers have different names, so names can key the cooldown map. */
  lemma NameInjective(p: ProviderId, q: ProviderId)
    ensures Name(p) == Name(q) <==> p == q
  {
  }

  datatype ProviderConfig = ProviderConfig(
    name: string,
    displayName: string,
    available: bool,
    apiKey: string,
    baseUrl: string,
    model: string,
    icon: string)

  /** The build environment: variable name to value. */
  type Env = map<string, string>

  function EnvVar(p: ProviderId): string
  {
    match p
    case Gemini => "VITE_GEMINI_API_KEY"
    case Groq => "VITE_GROQ_API_KEY"
    case OpenRouter => "VITE_OPENROUTER_API_KEY"
    case HuggingFace => "VITE_HUGGINGFACE_API_KEY"
    case OpenAI => "VITE_OPENAI_API_KEY"
  }

  /** `import.meta.env.X || ""`: a missing or empty variable gives "". */
  function EnvOrEmpty(env: Env, variable: string): string
  {
    if variable in env then env[variable] else ""
  }

  /** The fields of an `AI_PROVIDERS` entry that do not depend on the environment. */
  datatype Entry = Entry(displayName: string, baseUrl: string, model: string, icon: string)

  const GeminiEntry := Entry("Google Gemini",
    "https://generativelanguage."
      + "googleapis.com/v1beta/models/"
      + "gemini-2.0-flash:generateContent",
    "gemini-2.0-flash", "\U{1F916}")

  const GroqEntry := Entry("Groq (Llama 3)",
    "https://api.groq.com/openai/"
      + "v1/chat/completions",
    "llama-3.1-8b-instant", "\U{26A1}")

  const OpenRouterEntry := Entry("OpenRouter",
    "https://openrouter.ai/api/v1/"
      + "chat/completions",
    "meta-llama/llama-3.2-3b-instruct:free", "\U{1F4AC}")

  const HuggingFaceEntry := Entry("Hugging Face",
    "https://router.huggingface.co/"
      + "v1/chat/completions",
    "meta-llama/Llama-3.1-8B-Instruct", "\U{1F50D}")

  const OpenAIEntry := Entry("OpenAI GPT",
    "https://api.openai.com/v1/responses",
    "gpt-4o-mini", "\U{1F9E0}")

  function EntryOf(p: ProviderId): Entry
  {
    match p
    case Gemini => GeminiEntry
    case Groq => GroqEntry
    case OpenRouter => OpenRouterEntry
    case HuggingFace => HuggingFaceEntry
    case OpenAI => OpenAIEntry
  }

  /** The entry of `AI_PROVIDERS` for `p`: every provider is declared `available`, its key comes from the environment. */
  function Config(env: Env, p: ProviderId): ProviderConfig
  {
    var e := EntryOf(p);
    ProviderConfig(Name(p), e.displayName, true, EnvOrEmpty(env, EnvVar(p)), e.baseUrl, e.model, e.icon)
  }

  /** The order in which `AI_PROVIDERS` declares its entries (what `Object.values` yields). */
  const DeclarationOrder: seq<ProviderId> := [Gemini, Groq, OpenRouter, HuggingFace, OpenAI]

  /** `AI_PROVIDERS`: a record with one entry per provider. */
  function Registry(env: Env): (r: map<ProviderId, ProviderConfig>)
    ensures forall p: ProviderId :: p in r && r[p] == Config(env, p)
  {
    Declared();
    map p: ProviderId | p in DeclarationOrder :: Config(env, p)
  }

  lemma Declared()
    ensures forall p: ProviderId :: p in DeclarationOrder
  {
    forall p: ProviderId
      ensures p in DeclarationOrder
    {
      match p
      case Gemini => assert DeclarationOrder[0] == p;
      case Groq => assert DeclarationOrder[1] == p;
      case OpenRouter => assert DeclarationOrder[2] == p;
      case HuggingFace => assert DeclarationOrder[3] == p;
      case OpenAI => assert DeclarationOrder[4] == p;
    }
  }

  /** `provider.available && provider.apiKey`. */
  predicate IsConfigured(c: ProviderConfig)
  {
    c.available && c.apiKey != ""
  }

  /** The ids in `ids` whose configuration is usable, in the order of `ids`. */
  function ConfiguredIds(env: Env, ids: seq<ProviderId>): (r: seq<ProviderId>)
    ensures forall p :: p in r <==> p in ids && IsConfigured(Config(env, p))
    ensures |r| <= |ids|
  {
    if |ids| == 0 then []
    else (if IsConfigured(Config(env, ids[0])) then [ids[0]] else []) + ConfiguredIds(env, ids[1..])
  }

  function ConfigsOf(env: Env, ids: seq<ProviderId>): (r: seq<ProviderConfig>)
    ensures |r| == |ids| && forall k :: 0 <= k < |ids| ==> r[k] == Config(env, ids[k])
  {
    seq(|ids|, k requires 0 <= k < |ids| => Config(env, ids[k]))
  }

  /** `getAvailableProviders()`. */
  function GetAvailableProviders(env: Env): seq<ProviderConfig>
  {
    ConfigsOf(env, ConfiguredIds(env, DeclarationOrder))
  }

  /** `getProvider(name)`: total over the enumeration. */
  function GetProvider(env: Env, p: ProviderId): (c: ProviderConfig)
    ensures c == Registry(env)[p] && c.name == Name(p)
  {
    Registry(env)[p]
  }

  /** `xs` is obtained from `ys` by deleting elements. */
  predicate IsSubsequence<T(==)>(xs: seq<T>, ys: seq<T>)
    decreases |ys|
  {
    if |xs| == 0 then true
    else if |ys| == 0 then false
    else (xs[0] == ys[0] && IsSubsequence(xs[1..], ys[1..])) || IsSubsequence(xs, ys[1..])
  }

  /** The registry is closed: every provider is declared exactly once. */
  lemma DeclarationOrderComplete()
    ensures |DeclarationOrder| == 5
    ensures forall p: ProviderId :: p in DeclarationOrder
    ensures forall i, j :: 0 <= i < j < |DeclarationOrder| ==> DeclarationOrder[i] != DeclarationOrder[j]
  {
    Declared();
  }

  /** Every entry's `name` field equals its key. */
  lemma NamesMatchKeys(env: Env, p: ProviderId)
    ensures Registry(env)[p].name == Name(p)
  {
  }

  /** The filter keeps the order of `ids`. */
  lemma {:induction false} ConfiguredIdsSubsequence(env: Env, ids: seq<ProviderId>)
    ensures IsSubsequence(ConfiguredIds(env, ids), ids)
  {
    if |ids| > 0 {
      ConfiguredIdsSubsequence(env, ids[1..]);
      var r := ConfiguredIds(env, ids);
      if IsConfigured(Config(env, ids[0])) {
        assert r[0] == ids[0] && r[1..] == ConfiguredIds(env, ids[1..]);
        assert IsSubsequence(r[1..], ids[1..]);
      } else {
        assert r == ConfiguredIds(env, ids[1..]);
      }
    }
  }

  /** The configurations listed for `ids` are those of its members. */
  lemma ConfigsOfMembers(env: Env, ids: seq<ProviderId>, c: ProviderConfig)
    ensures c in ConfigsOf(env, ids) <==> exists p :: p in ids && c == Config(env, p)
  {
    var r := ConfigsOf(env, ids);
    if c in r {
      var k :| 0 <= k < |r| && r[k] == c;
      assert ids[k] in ids && c == Config(env, ids[k]);
    }
    if exists p :: p in ids && c == Config(env, p) {
      var p :| p in ids && c == Config(env, p);
      var k :| 0 <= k < |ids| && ids[k] == p;
      assert r[k] == c;
    }
  }

  /**
   * `getAvailableProviders` returns exactly the configured entries, as an
   * order-preserving subsequence of the declaration order.
   */
  lemma AvailableProvidersExact(env: Env)
    ensures forall c :: c in GetAvailableProviders(env) <==>
      exists p :: c == Config(env, p) && IsConfigured(c)
    ensures IsSubsequence(ConfiguredIds(env, DeclarationOrder), DeclarationOrder)
    ensures GetAvailableProviders(env) == ConfigsOf(env, ConfiguredIds(env, DeclarationOrder))
  {
    var ids := ConfiguredIds(env, DeclarationOrder);
    Declared();
    forall c
      ensures c in GetAvailableProviders(env) <==> exists p :: c == Config(env, p) && IsConfigured(c)
    {
      ConfigsOfMembers(env, ids, c);
      if exists p :: c == Config(env, p) && IsConfigured(c) {
        var p :| c == Config(env, p) && IsConfigured(c);
        assert p in ids;
      }
    }
    ConfiguredIdsSubsequence(env, DeclarationOrder);
  }

  /** A missing environment variable leaves the key empty, which excludes the provider. */
  lemma MissingKeyExcludes(env: Env, p: ProviderId)
    requires EnvVar(p) !in env || env[EnvVar(p)] == ""
    ensures Config(env, p).apiKey == ""
    ensures p !in ConfiguredIds(env, DeclarationOrder)
    ensures Config(env, p) !in GetAvailableProviders(env)
  {
    AvailableProvidersExact(env);
  }
}
