/**
 * The backend adapters of the AI service, seen from the orchestrator: each
 * remote call is represented by the reply the backend gives, and each
 * adapter maps that reply to either the completion text or the message of
 * the error it throws.
 */
module Adapters {
  import opened Wrappers
  import opened Strings

  /** What `await response.json()` yields. */
  datatype Body =
    /** `json()` rejects; the SyntaxError carries this message. */
    | Unparsable(parseError: string)
    | Parsed(
        /** `JSON.stringify` of the parsed body. */
        serialized: string,
        /** `errorData.error?.message`, "" when absent. */
        errorMessage: string,
        /** The completion text where this backend's format puts it, if present. */
        completion: Option<string>,
        /** OpenAI only: the older `choices[0].message.content`, if present. */
        legacyCompletion: Option<string>)

  /** The result of one `fetch`. */
  datatype Reply =
    /** `fetch` itself rejects (network failure); the TypeError carries this message. */
    | Unreachable(reason: string)
    | Http(status: nat, statusText: string, body: Body)

  /** What an adapter returns: the text, or the message of the Error it throws. */
  datatype Outcome = Success(text: string) | Failure(message: string)

  /** `response.ok`. */
  predicate IsOk(status: nat)
  {
    200 <= status <= 299
  }

  /** The phrase the orchestrator looks for to recognise a rate limit. */
  const RateLimitPhrase := "rate limit"

  /** The TypeError thrown when a success body lacks the expected path (wording is the runtime's). */
  const MissingFieldError := "Cannot read properties of undefined"

  const SorryText := "I'm sorry, I couldn't process that."

  /** `JSON.stringify(errorData)` where `errorData` falls back to `{}` when the body does not parse. */
  function ErrorJson(body: Body): string
  {
    match body
    case Unparsable(_) => "{}"
    case Parsed(s, _, _, _) => s
  }

  /** `(await response.json()).<path>.trim()` on a success response. */
  function ReadCompletion(body: Body): Outcome
  {
    match body
    case Unparsable(e) => Failure(e)
    case Parsed(_, _, c, _) =>
      if c.None? then Failure(MissingFieldError) else Success(Trim(c.value))
  }

  /** The message of a non-2xx error that embeds the status: "<Backend> API error: <status> <text> - <detail>". */
  function StatusError(backend: string, status: nat, statusText: string, detail: string): string
  {
    backend + " API error: " + NatToString(status) + " " + statusText + " - " + detail
  }

  const GeminiRateLimitLead := "Gemini API "

  const GeminiRateLimitTail :=
    " exceeded. The service will "
    + "automatically skip Gemini for "
    + "the next few minutes. Error: "

  function GeminiRateLimitText(detail: string): string
  {
    GeminiRateLimitLead + RateLimitPhrase + GeminiRateLimitTail + detail
  }

  /** `callGeminiAPI`, apart from its side effect on the cooldown map. */
  function GeminiOutcome(reply: Reply): Outcome
  {
    match reply
    case Unreachable(reason) => Failure(reason)
    case Http(status, statusText, body) =>
      if IsOk(status) then ReadCompletion(body)
      else if status == 429 then Failure(GeminiRateLimitText(ErrorJson(body)))
      else Failure(StatusError("Gemini", status, statusText, ErrorJson(body)))
  }

  /** `callGeminiAPI` marks "gemini" as rate-limited exactly on a 429 reply. */
  predicate GeminiMarks(reply: Reply)
  {
    reply.Http? && reply.status == 429
  }

  /** `callGroqAPI`. */
  function GroqOutcome(reply: Reply): Outcome
  {
    match reply
    case Unreachable(reason) => Failure(reason)
    case Http(status, statusText, body) =>
      if IsOk(status) then ReadCompletion(body)
      else Failure(StatusError("Groq", status, statusText, ErrorJson(body)))
  }

  /** `callOpenRouterAPI`. */
  function OpenRouterOutcome(reply: Reply): Outcome
  {
    match reply
    case Unreachable(reason) => Failure(reason)
    case Http(status, statusText, body) =>
      if IsOk(status) then ReadCompletion(body)
      else Failure(StatusError("OpenRouter", status, statusText, ErrorJson(body)))
  }

  const OpenAIKeyInvalidText :=
    "OpenAI API key has expired or "
    + "is invalid. Please renew or "
    + "regenerate your API key at "
    + "https://platform.openai.com/"
    + "api-keys. Otherwise, use "
    + "another AI provider (Gemini, "
    + "Groq, or OpenRouter) from the "
    + "dropdown menu. Error: "

  const OpenAIQuotaText :=
    "OpenAI API quota exceeded. "
    + "You've reached your current "
    + "usage limit. Please check "
    + "your plan and billing details "
    + "at https://platform.openai."
    + "com/account/billing. "
    + "Otherwise, use another AI "
    + "provider (Gemini, Groq, or "
    + "OpenRouter) from the dropdown "
    + "menu. Error: "

  /** `errorData.error?.message || response.statusText`. */
  function OpenAIErrorMessage(body: Body, statusText: string): string
  {
    match body
    case Unparsable(_) => statusText
    case Parsed(_, m, _, _) => if m != "" then m else statusText
  }

  /** `callOpenAIAPI`. */
  function OpenAIOutcome(reply: Reply): Outcome
  {
    match reply
    case Unreachable(reason) => Failure(reason)
    case Http(status, statusText, body) =>
      if !IsOk(status) then
        var detail := OpenAIErrorMessage(body, statusText);
        if status == 401 || status == 403 then Failure(OpenAIKeyInvalidText + detail)
        else if status == 429 then Failure(OpenAIQuotaText + detail)
        else Failure("OpenAI API error: " + NatToString(status) + " " + statusText + " - " + detail)
      else
        match body
        case Unparsable(e) => Failure(e)
        case Parsed(_, _, c, legacy) =>
          if c.Some? && c.value != "" then Success(Trim(c.value))
          else if legacy.Some? && Trim(legacy.value) != "" then Success(Trim(legacy.value))
          else Success(SorryText)
  }

  // ---------------------------------------------------------------------------
  // Hugging Face: a walk over a fixed list of models

  const HuggingFaceModels: seq<string> := [
    "meta-llama/Llama-3.1-8B-Instruct",
    "mistralai/Mistral-7B-Instruct-v0.3",
    "HuggingFaceH4/zephyr-7b-beta",
    "tiiuae/falcon-7b-instruct",
    "google/gemma-2b-it",
    "NousResearch/Hermes-2-Pro-Mistral-7B",
    "mistralai/Mistral-7B-Instruct-v0.2",
    "google/gemma-2b",
    "google/gemma-7b",
    "mistralai/Mixtral-8x7B-Instruct-v0.1",
    "tiiuae/falcon-7b",
    "microsoft/phi-1_5",
    "bigscience/bloomz-560m",
    "HuggingFaceH4/zephyr-7b-alpha",
    "tiiuae/falcon-40b-instruct",
    "facebook/bart-large-cnn"
  ]

  /** The summarisation model at the end of the list, whose answer is not a chat reply. */
  const FallbackModel := "facebook/bart-large-cnn"

  /** The notice returned when only the fallback model answers, naming the models that failed. */
  function DegradedNotice(failed: seq<string>): string
  {
    DegradedLead + Join(failed, ", ") + DegradedTail
  }

  const DegradedLead :=
    "Hugging Face chat models are "
    + "currently unavailable. The "
    + "following models failed: "

  const DegradedTail :=
    ". Only the fallback model "
    + "(bart-large-cnn) is "
    + "available, but it's designed "
    + "for text summarization, not "
    + "chat. Please select another "
    + "AI provider (Gemini, Groq, or "
    + "OpenRouter) from the dropdown "
    + "menu for better chat "
    + "responses."

  /** The error thrown once every model failed. */
  function AllModelsFailedText(failed: seq<string>): string
  {
    AllFailedLead + Join(failed, ", ") + AllFailedTail
  }

  const AllFailedLead :=
    "All Hugging Face chat models "
    + "failed: "

  const AllFailedTail :=
    ". Please check your API key "
    + "or try another provider."

  /** One model's attempt inside the walk. */
  datatype Attempt = Answered(text: string) | ModelFailed

  /**
   * One iteration of the model loop, given the models that failed before it.
   * A transport error, a non-2xx status and a body that does not parse all
   * count as a failure of that model.
   */
  function TryModel(model: string, reply: Reply, failed: seq<string>): Attempt
  {
    match reply
    case Unreachable(_) => ModelFailed
    case Http(status, _, body) =>
      if !IsOk(status) || body.Unparsable? then ModelFailed
      else if model == FallbackModel then Answered(DegradedNotice(failed))
      else if body.completion.Some? && body.completion.value != "" then Answered(Trim(body.completion.value))
      else Answered(SorryText)
  }

  /** The outcome of the walk and the models it called, in order. */
  datatype Walk = Walk(outcome: Outcome, tried: seq<string>)

  /** The walk from model `i` on, the models before `i` having failed. */
  function HuggingFaceFrom(replies: string -> Reply, i: nat): Walk
    requires i <= |HuggingFaceModels|
    decreases |HuggingFaceModels| - i
  {
    if i == |HuggingFaceModels| then
      Walk(Failure(AllModelsFailedText(HuggingFaceModels)), HuggingFaceModels)
    else
      var m := HuggingFaceModels[i];
      match TryModel(m, replies(m), HuggingFaceModels[..i])
      case Answered(t) => Walk(Success(t), HuggingFaceModels[..i + 1])
      case ModelFailed => HuggingFaceFrom(replies, i + 1)
  }

  /** One step of the walk: an answer from model `i` ends it, a failure moves on to model `i + 1`. */
  lemma HuggingFaceStep(replies: string -> Reply, i: nat)
    requires i < |HuggingFaceModels|
    ensures var m := HuggingFaceModels[i];
      match TryModel(m, replies(m), HuggingFaceModels[..i])
      case Answered(t) => HuggingFaceFrom(replies, i) == Walk(Success(t), HuggingFaceModels[..i + 1])
      case ModelFailed => HuggingFaceFrom(replies, i) == HuggingFaceFrom(replies, i + 1)
  {
  }

  /** `callHuggingFaceAPI`. */
  function HuggingFaceOutcome(replies: string -> Reply): Outcome
  {
    HuggingFaceFrom(replies, 0).outcome
  }

  /** Model `j`'s attempt fails. */
  predicate ModelFails(replies: string -> Reply, j: nat)
    requires j < |HuggingFaceModels|
  {
    TryModel(HuggingFaceModels[j], replies(HuggingFaceModels[j]), HuggingFaceModels[..j]).ModelFailed?
  }

  /**
   * The walk stops at the first model that answers: its answer is the result
   * and exactly the models up to it were called.
   */
  lemma {:induction false} HuggingFaceFirstAnswer(replies: string -> Reply, i: nat, k: nat)
    requires i <= k < |HuggingFaceModels|
    requires forall j :: i <= j < k ==> ModelFails(replies, j)
    requires !ModelFails(replies, k)
    ensures HuggingFaceFrom(replies, i) == Walk(
      Success(TryModel(HuggingFaceModels[k], replies(HuggingFaceModels[k]), HuggingFaceModels[..k]).text),
      HuggingFaceModels[..k + 1])
    decreases k - i
  {
    if i < k {
      assert ModelFails(replies, i);
      HuggingFaceFirstAnswer(replies, i + 1, k);
    }
  }

  /** When every model fails, one error is thrown that names all sixteen models. */
  lemma {:induction false} HuggingFaceAllFail(replies: string -> Reply, i: nat)
    requires i <= |HuggingFaceModels|
    requires forall j :: i <= j < |HuggingFaceModels| ==> ModelFails(replies, j)
    ensures HuggingFaceFrom(replies, i) == Walk(Failure(AllModelsFailedText(HuggingFaceModels)), HuggingFaceModels)
    decreases |HuggingFaceModels| - i
  {
    if i < |HuggingFaceModels| {
      assert ModelFails(replies, i);
      HuggingFaceAllFail(replies, i + 1);
    }
  }

  /** The all-failed error lists every model of the walk. */
  lemma AllModelsFailedNamesEach(failed: seq<string>, k: nat)
    requires k < |failed|
    ensures Contains(AllModelsFailedText(failed), failed[k])
  {
    var pre, post := AllFailedLead, AllFailedTail;
    JoinContains(failed, ", ", k);
    ContainsAfterPrefix(pre, Join(failed, ", "), failed[k]);
    ContainsBeforeSuffix(pre + Join(failed, ", "), post, failed[k]);
  }

  /** The fallback model is the last of the sixteen and appears nowhere else in the list. */
  lemma FallbackIsLast()
    ensures |HuggingFaceModels| == 16
    ensures HuggingFaceModels[15] == FallbackModel
    ensures forall j :: 0 <= j < 15 ==> HuggingFaceModels[j] != FallbackModel
  {
  }

  /** The degraded notice names every failed model it is given. */
  lemma DegradedNoticeNamesEach(failed: seq<string>, k: nat)
    requires k < |failed|
    ensures Contains(DegradedNotice(failed), failed[k])
  {
    var pre, post := DegradedLead, DegradedTail;
    JoinContains(failed, ", ", k);
    ContainsAfterPrefix(pre, Join(failed, ", "), failed[k]);
    ContainsBeforeSuffix(pre + Join(failed, ", "), post, failed[k]);
  }

  /**
   * If only the fallback model answers, the result is the degraded notice and
   * that notice names each of the fifteen chat models that failed.
   */
  lemma HuggingFaceDegraded(replies: string -> Reply)
    requires forall j :: 0 <= j < 15 ==> ModelFails(replies, j)
    requires replies(FallbackModel).Http? && IsOk(replies(FallbackModel).status)
    requires replies(FallbackModel).body.Parsed?
    ensures HuggingFaceOutcome(replies) == Success(DegradedNotice(HuggingFaceModels[..15]))
    ensures forall j :: 0 <= j < 15 ==> Contains(HuggingFaceOutcome(replies).text, HuggingFaceModels[j])
  {
    FallbackIsLast();
    var failed := HuggingFaceModels[..15];
    assert TryModel(FallbackModel, replies(FallbackModel), failed) == Answered(DegradedNotice(failed));
    HuggingFaceFirstAnswer(replies, 0, 15);
    forall j | 0 <= j < 15
      ensures Contains(DegradedNotice(failed), HuggingFaceModels[j])
    {
      DegradedNoticeNamesEach(failed, j);
    }
  }

  // ---------------------------------------------------------------------------
  // What the error messages reveal to the orchestrator's rate-limit test

  lemma Status429Text()
    ensures NatToString(429) == "429"
  {
    assert NatToString(4) == "4";
    assert NatToString(42) == NatToString(4) + [DigitChar(2)];
  }

  /** A status error names its status code in decimal. */
  lemma StatusErrorNamesStatus(backend: string, status: nat, statusText: string, detail: string)
    ensures Contains(StatusError(backend, status, statusText, detail), NatToString(status))
  {
    var pre := backend + " API error: ";
    var post := " " + statusText + " - " + detail;
    ContainsMiddle(pre, NatToString(status), post);
    assert pre + NatToString(status) + post == StatusError(backend, status, statusText, detail);
  }

  /** Groq and OpenRouter embed the status, so a 429 from them shows "429". */
  lemma ChatBackends429(reply: Reply)
    requires reply.Http? && reply.status == 429
    ensures GroqOutcome(reply).Failure? && Contains(GroqOutcome(reply).message, "429")
    ensures OpenRouterOutcome(reply).Failure? && Contains(OpenRouterOutcome(reply).message, "429")
  {
    Status429Text();
    StatusErrorNamesStatus("Groq", 429, reply.statusText, ErrorJson(reply.body));
    StatusErrorNamesStatus("OpenRouter", 429, reply.statusText, ErrorJson(reply.body));
  }

  /** A Gemini 429 is thrown with a message containing "rate limit", and marks Gemini. */
  lemma Gemini429(reply: Reply)
    requires reply.Http? && reply.status == 429
    ensures GeminiMarks(reply)
    ensures GeminiOutcome(reply).Failure? && Contains(GeminiOutcome(reply).message, RateLimitPhrase)
  {
    var tail := GeminiRateLimitTail + ErrorJson(reply.body);
    ContainsMiddle(GeminiRateLimitLead, RateLimitPhrase, tail);
    assert GeminiRateLimitLead + RateLimitPhrase + tail == GeminiRateLimitText(ErrorJson(reply.body));
  }

  /** An OpenAI 429 fails with the quota text followed by the backend's detail. */
  lemma OpenAI429(reply: Reply)
    requires reply.Http? && reply.status == 429
    ensures OpenAIOutcome(reply) == Failure(OpenAIQuotaText + OpenAIErrorMessage(reply.body, reply.statusText))
  {
  }
}
