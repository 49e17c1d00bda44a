/** The inference adapter (app/services/llm_service.py): it picks the wire
    format from the settings, builds the upstream request, and turns the
    upstream's answer into reply text or a failure. The HTTP round trip is an
    input: `Upstream` is what the endpoint answered to the request built. */
module LlmService {
  import opened Wrappers
  import opened Text
  import opened PyJson
  import opened Config

  /** The shared router used when no dedicated endpoint is configured. */
  const RouterUrl: string := "https://router.huggingface.co/v1/chat/completions"
  /** Seconds the upstream call may take (the `request_timeout` setting is not used). */
  const UpstreamTimeout: real := 180.0
  const RepetitionPenalty: real := 1.2

  /** ChatML, the prompt markup of Qwen2 models: the turns around the system
      prompt and the user message. */
  const SystemTurn: string := "<|im_start|>system"
  const UserTurn: string := "<|im_end|><|im_start|>user"
  const AssistantTurn: string := "<|im_end|><|im_start|>assistant"

  /** End-of-turn markers removed from the end of a reply, in the order tried. */
  const EndMarkers: seq<string> := ["<|im_end|>", "<|endoftext|>", "</s>"]

  const FailurePrefix: string := "Failed to generate response: "
  const TimeoutMessage: string := "Request timed out. The model may be loading - please try again."
  const EmptyResponseMessage: string := "Model returned empty response."

  datatype ChatMessage = ChatMessage(role: string, content: string)

  /** The two JSON bodies: text generation for a dedicated endpoint,
      OpenAI-style chat completions for the router. */
  datatype Payload =
    | TextGeneration(inputs: string, maxNewTokens: int, temperature: real,
                     doSample: bool, returnFullText: bool, repetitionPenalty: real)
    | ChatCompletion(model: string, messages: seq<ChatMessage>, maxTokens: int, temperature: real)

  datatype HttpRequest = HttpRequest(url: string, headers: seq<(string, string)>, payload: Payload, timeout: real)

  /** What the upstream call produced: a timeout, another transport error,
      or a reply with its status, body text and the body decoded as JSON
      (or the decoder's error). */
  datatype Upstream =
    | TimedOut
    | TransportFailed(error: PyError)
    | Reply(status: nat, text: string, json: Result<Json, PyError>)

  /** Why a generation failed inside the wrapped region of `generate_response`. */
  datatype Cause =
    | ApiError(status: nat, message: string)
    | EmptyResponse
    | Raised(error: PyError)
  {
    /** `str(e)` of the exception raised for this cause. */
    function Text(): string
    {
      match this
      case ApiError(status, message) => "HuggingFace API error (" + IntToString(status) + "): " + message
      case EmptyResponse => EmptyResponseMessage
      case Raised(error) => error.text
    }
  }

  datatype Failure = Timeout | Failed(cause: Cause)
  {
    /** The message of the exception `generate_response` raises: a timeout
        is reported as it is, everything else behind a fixed prefix. */
    function Message(): (m: string)
      ensures Timeout? ==> m == TimeoutMessage
      ensures Failed? ==> |m| >= |FailurePrefix| && m[..|FailurePrefix|] == FailurePrefix
    {
      match this
      case Timeout => TimeoutMessage
      case Failed(cause) => FailurePrefix + cause.Text()
    }
  }

  datatype Generated = Generated(text: string, conversationId: string)

  /** A caller's value when given, the configured default otherwise; a
      given zero is kept. */
  function ResolveParam<T>(given: Option<T>, default: T): (r: T)
    ensures given.Some? ==> r == given.value
    ensures given.None? ==> r == default
  {
    if given.Some? then given.value else default
  }

  predicate IsHexDigit(c: char)
  {
    ('0' <= c <= '9') || ('a' <= c <= 'f')
  }

  /** The text of a random UUID: 32 lower-case hex digits in groups 8-4-4-4-12. */
  predicate IsUuidText(u: string)
  {
    |u| == 36 && forall k :: 0 <= k < |u| ==> if k in {8, 13, 18, 23} then u[k] == '-' else IsHexDigit(u[k])
  }

  /** `conversation_id or str(uuid4())[:8]`. */
  function ConversationId(given: Option<string>, uuidText: string): (id: string)
    requires IsUuidText(uuidText)
    ensures given.Some? && given.value != [] ==> id == given.value
    ensures given.None? || given.value == [] ==>
      |id| == 8 && id == uuidText[..8] && forall k :: 0 <= k < |id| ==> IsHexDigit(id[k])
  {
    if given.Some? && given.value != [] then given.value else uuidText[..8]
  }

  /** `_format_prompt`: the ChatML prompt for the dedicated endpoint. */
  function FormatPrompt(systemPrompt: string, message: string): (prompt: string)
    ensures var start := |SystemTurn| + |systemPrompt| + |UserTurn|;
      |prompt| == start + |message| + |AssistantTurn|
      && prompt[..start] == SystemTurn + systemPrompt + UserTurn
      && prompt[start..start + |message|] == message
      && prompt[start + |message|..] == AssistantTurn
  {
    SystemTurn + systemPrompt + UserTurn + message + AssistantTurn
  }

  /** Reads the user message back out of a prompt built with `systemPrompt`. */
  function PromptMessage(systemPrompt: string, prompt: string): Option<string>
  {
    var start := |SystemTurn| + |systemPrompt| + |UserTurn|;
    if |prompt| >= start + |AssistantTurn|
       && prompt[..start] == SystemTurn + systemPrompt + UserTurn
       && EndsWith(prompt, AssistantTurn)
    then Some(prompt[start..|prompt| - |AssistantTurn|])
    else None
  }

  /** The message sits verbatim in the prompt: reading it back gives it, and
      a prompt that reads back to a message is exactly that message's prompt. */
  lemma PromptRoundTrip(systemPrompt: string, message: string, prompt: string)
    ensures PromptMessage(systemPrompt, FormatPrompt(systemPrompt, message)) == Some(message)
    ensures PromptMessage(systemPrompt, prompt) == Some(message) ==> FormatPrompt(systemPrompt, message) == prompt
  {
    var p := FormatPrompt(systemPrompt, message);
    var start := |SystemTurn| + |systemPrompt| + |UserTurn|;
    assert p[..start] == SystemTurn + systemPrompt + UserTurn;
    assert p[start..|p| - |AssistantTurn|] == message;
    assert p[|p| - |AssistantTurn|..] == AssistantTurn;
    if PromptMessage(systemPrompt, prompt) == Some(message) {
      assert prompt == prompt[..start] + prompt[start..|prompt| - |AssistantTurn|] + prompt[|prompt| - |AssistantTurn|..];
    }
  }

  /** Distinct messages give distinct prompts. */
  lemma PromptInjective(systemPrompt: string, m1: string, m2: string)
    requires FormatPrompt(systemPrompt, m1) == FormatPrompt(systemPrompt, m2)
    ensures m1 == m2
  {
    PromptRoundTrip(systemPrompt, m1, []);
    PromptRoundTrip(systemPrompt, m2, []);
  }

  /** The dedicated endpoint is used exactly when its URL is configured. */
  function EndpointUrl(settings: Settings): (url: string)
    ensures settings.hfEndpointUrl != [] ==> url == settings.hfEndpointUrl
    ensures settings.hfEndpointUrl == [] ==> url == RouterUrl
  {
    if settings.hfEndpointUrl != [] then settings.hfEndpointUrl else RouterUrl
  }

  function Headers(settings: Settings): seq<(string, string)>
  {
    [("Authorization", "Bearer " + settings.hfToken), ("Content-Type", "application/json")]
  }

  /** The body sent upstream: the dedicated format wraps the ChatML prompt
      with fixed sampling flags, the chat format sends the system prompt and
      the user message, in that order. */
  function RequestPayload(settings: Settings, message: string, temperature: Option<real>, maxTokens: Option<int>)
    : (p: Payload)
    ensures p.TextGeneration? <==> settings.hfEndpointUrl != []
    ensures p.TextGeneration? ==>
      PromptMessage(settings.systemPrompt, p.inputs) == Some(message)
      && p.doSample && !p.returnFullText && p.repetitionPenalty == RepetitionPenalty
      && p.maxNewTokens == ResolveParam(maxTokens, settings.maxNewTokens)
      && p.temperature == ResolveParam(temperature, settings.temperature)
    ensures p.ChatCompletion? ==>
      p.model == settings.modelName
      && p.messages == [ChatMessage("system", settings.systemPrompt), ChatMessage("user", message)]
      && p.maxTokens == ResolveParam(maxTokens, settings.maxNewTokens)
      && p.temperature == ResolveParam(temperature, settings.temperature)
  {
    var temp := ResolveParam(temperature, settings.temperature);
    var maxNew := ResolveParam(maxTokens, settings.maxNewTokens);
    if settings.hfEndpointUrl != [] then
      PromptRoundTrip(settings.systemPrompt, message, []);
      TextGeneration(FormatPrompt(settings.systemPrompt, message), maxNew, temp, true, false, RepetitionPenalty)
    else
      ChatCompletion(settings.modelName,
                     [ChatMessage("system", settings.systemPrompt), ChatMessage("user", message)], maxNew, temp)
  }

  /** The message of a non-200 reply: the `error` member's `message` when
      `error` is an object, the `error` member itself when it is anything
      else, and otherwise the body text or, for an empty body, the status. */
  function ApiErrorMessage(status: nat, text: string, json: Result<Json, PyError>): string
  {
    var fallback := if text != [] then text else "HTTP " + IntToString(status);
    if json.Failure? || !json.value.JObject? then fallback
    else
      match Lookup(json.value.members, "error")
      case None => fallback
      case Some(JObject(inner)) =>
        (match Lookup(inner, "message")
         case Some(message) => Str(message)
         case None => fallback)
      case Some(error) => Str(error)
  }

  /** The raw reply value, before `or ""`: `data[0].get("generated_text", "")`
      or `data.get("generated_text", str(data))` for the dedicated format,
      `data["choices"][0]["message"]["content"]` for the chat format. */
  function ReplyValue(dedicated: bool, data: Json): Result<Json, PyError>
  {
    if dedicated then
      if data.JArray? && |data.items| > 0 then Get(data.items[0], "generated_text", JString([]))
      else Get(data, "generated_text", JString(Str(data)))
    else
      match Subscript(data, Name("choices"))
      case Failure(e) => Failure(e)
      case Success(choices) =>
        match Subscript(choices, Index(0))
        case Failure(e) => Failure(e)
        case Success(choice) =>
          match Subscript(choice, Name("message"))
          case Failure(e) => Failure(e)
          case Success(message) => Subscript(message, Name("content"))
  }

  /** `value or ""` handed to `strip()`: a false value becomes the empty
      string, a string stays, anything else has no `strip`. */
  function StripInput(value: Json): (r: Result<string, PyError>)
    ensures !Truthy(value) ==> r == Success([])
    ensures Truthy(value) && value.JString? ==> r == Success(value.s)
    ensures r.Failure? <==> Truthy(value) && !value.JString?
  {
    if !Truthy(value) then Success([])
    else if value.JString? then Success(value.s)
    else Failure(NoAttribute(value, "strip"))
  }

  /** Removes one trailing `marker`, then surrounding whitespace again. */
  function RemoveMarker(s: string, marker: string): string
  {
    if EndsWith(s, marker) then Strip(s[..|s| - |marker|]) else s
  }

  /** Tries the markers in order, each once. */
  function RemoveMarkers(s: string, markers: seq<string>): string
  {
    if markers == [] then s
    else RemoveMarker(RemoveMarkers(s, markers[..|markers| - 1]), markers[|markers| - 1])
  }

  /** One more marker is one more `RemoveMarker`. */
  lemma RemoveMarkersStep(s: string, markers: seq<string>, i: nat)
    requires i < |markers|
    ensures RemoveMarkers(s, markers[..i + 1]) == RemoveMarker(RemoveMarkers(s, markers[..i]), markers[i])
  {
    assert markers[..i + 1][..i] == markers[..i];
  }

  /** What `_clean_response` returns. */
  function Cleaned(s: string): string
  {
    RemoveMarkers(Strip(s), EndMarkers)
  }

  /** A prefix of a stripped string strips to a prefix of it. */
  lemma StripPrefixOfStripped(t: string, k: nat)
    requires IsStripped(t) && k <= |t|
    ensures |Strip(t[..k])| <= |t| && Strip(t[..k]) == t[..|Strip(t[..k])|]
  {
    if k > 0 {
      assert TrimLeft(t[..k]) == t[..k];
    }
  }

  /** Removing markers from a stripped string leaves a stripped prefix of it. */
  lemma {:induction false} RemoveMarkersPrefix(t: string, markers: seq<string>)
    requires IsStripped(t)
    ensures IsStripped(RemoveMarkers(t, markers))
    ensures |RemoveMarkers(t, markers)| <= |t|
    ensures RemoveMarkers(t, markers) == t[..|RemoveMarkers(t, markers)|]
  {
    if markers != [] {
      var before := RemoveMarkers(t, markers[..|markers| - 1]);
      var marker := markers[|markers| - 1];
      RemoveMarkersPrefix(t, markers[..|markers| - 1]);
      if EndsWith(before, marker) {
        StripPrefixOfStripped(before, |before| - |marker|);
        PrefixOfPrefix(t, before, |before| - |marker|, |RemoveMarker(before, marker)|);
      }
    }
  }

  /** `_clean_response` yields a stripped prefix of the stripped input
      (`CleanedIsSlice` places it in the input itself). */
  lemma CleanedIsStrippedPrefix(s: string)
    ensures IsStripped(Cleaned(s))
    ensures |Cleaned(s)| <= |Strip(s)| <= |s|
    ensures Cleaned(s) == Strip(s)[..|Cleaned(s)|]
  {
    RemoveMarkersPrefix(Strip(s), EndMarkers);
  }

  /** `_clean_response` yields a contiguous piece of its input: the slice
      starting after the leading whitespace. */
  lemma {:induction false} CleanedIsSlice(s: string)
    ensures IsSliceAt(s, |s| - |TrimLeft(s)|, Cleaned(s))
  {
    CleanedPrefixOfTrimmed(s);
    PrefixOfSuffix(s, TrimLeft(s), Cleaned(s));
  }

  /** `_clean_response` yields a prefix of the input without its leading whitespace. */
  lemma CleanedPrefixOfTrimmed(s: string)
    ensures |Cleaned(s)| <= |TrimLeft(s)| && Cleaned(s) == TrimLeft(s)[..|Cleaned(s)|]
  {
    CleanedIsStrippedPrefix(s);
    PrefixOfPrefix(TrimLeft(s), Strip(s), |Strip(s)|, |Cleaned(s)|);
    assert Strip(s)[..|Strip(s)|] == Strip(s);
  }

  /** An input that, once stripped, ends with no marker is only stripped. */
  lemma {:induction false} CleanedWithoutMarker(s: string)
    requires forall i :: 0 <= i < |EndMarkers| ==> !EndsWith(Strip(s), EndMarkers[i])
    ensures Cleaned(s) == Strip(s)
  {
    var t := Strip(s);
    assert !EndsWith(t, EndMarkers[0]) && !EndsWith(t, EndMarkers[1]) && !EndsWith(t, EndMarkers[2]);
    assert RemoveMarker(t, "<|im_end|>") == t;
    assert RemoveMarker(t, "<|endoftext|>") == t;
    assert RemoveMarker(t, "</s>") == t;
    CleanedUnrolled(s);
  }

  /** The three markers, tried one after another. */
  lemma {:induction false} CleanedUnrolled(s: string)
    ensures Cleaned(s) == RemoveMarker(RemoveMarker(RemoveMarker(Strip(s), "<|im_end|>"), "<|endoftext|>"), "</s>")
  {
    var t := Strip(s);
    var one := RemoveMarker(t, "<|im_end|>");
    var two := RemoveMarker(one, "<|endoftext|>");
    assert RemoveMarkers(t, EndMarkers[..1]) == one by {
      RemoveMarkersStep(t, EndMarkers, 0);
      assert EndMarkers[..0] == [];
    }
    assert RemoveMarkers(t, EndMarkers[..2]) == two by {
      RemoveMarkersStep(t, EndMarkers, 1);
    }
    assert RemoveMarkers(t, EndMarkers[..3]) == RemoveMarker(two, "</s>") by {
      RemoveMarkersStep(t, EndMarkers, 2);
    }
    assert EndMarkers[..3] == EndMarkers;
  }

  /** A marker directly after a stripped text is removed, leaving that text. */
  lemma RemoveMarkerAfter(text: string, marker: string)
    requires IsStripped(text)
    ensures RemoveMarker(text + marker, marker) == text
  {
    var s := text + marker;
    assert s[|s| - |marker|..] == marker;
    assert s[..|s| - |marker|] == text;
    StripKeepsStripped(text);
  }

  /** A text whose character `k` places before the end differs from the
      marker's does not end with it. */
  lemma RemoveMarkerMismatch(s: string, marker: string, k: nat)
    requires k < |marker| <= |s|
    requires s[|s| - |marker| + k] != marker[k]
    ensures RemoveMarker(s, marker) == s
  {
    assert s[|s| - |marker|..][k] != marker[k];
  }

  /** Text that ends in `"</s>"` ends with neither of the other two markers. */
  lemma EosEndsWithNoOtherMarker(s: string)
    requires EndsWith(s, "</s>")
    ensures RemoveMarker(s, "<|im_end|>") == s
    ensures RemoveMarker(s, "<|endoftext|>") == s
  {
    assert s[|s| - 4] == '<';
    if |s| >= 10 { RemoveMarkerMismatch(s, "<|im_end|>", 6); }
    if |s| >= 13 { RemoveMarkerMismatch(s, "<|endoftext|>", 9); }
  }

  /** A stripped text followed by `"</s>"` is still stripped. */
  lemma EosKeepsStripped(text: string)
    requires IsStripped(text)
    ensures IsStripped(text + "</s>")
  {
    var s := text + "</s>";
    assert s[0] == if text == [] then '<' else text[0];
    assert s[|s| - 1] == '>';
  }

  /** A trailing `"</s>"` is removed (as in a reply `"It edits DNA.</s>"`). */
  lemma CleanedDropsEos(text: string)
    requires IsStripped(text)
    ensures Cleaned(text + "</s>") == text
  {
    var s := text + "</s>";
    assert s[|s| - 4..] == "</s>";
    EosKeepsStripped(text);
    StripKeepsStripped(s);
    CleanedUnrolled(s);
    EosEndsWithNoOtherMarker(s);
    RemoveMarkerAfter(text, "</s>");
  }

  /** Each marker is removed at most once: of two trailing `"</s>"` one stays. */
  lemma CleanedRemovesMarkerOnce(text: string)
    requires text != [] && IsStripped(text)
    ensures Cleaned(text + "</s></s>") == text + "</s>"
  {
    assert text + "</s></s>" == (text + "</s>") + "</s>";
    var t := text + "</s>";
    assert t[|t| - 1] == '>';
    CleanedDropsEos(t);
  }

  /** The markers are tried in a fixed order, so `"<|im_end|>"` before a
      `"</s>"` survives the first pass and goes in the second:
      `_clean_response` is not idempotent. */
  lemma CleanedNotIdempotent(text: string)
    requires text != [] && IsStripped(text)
    requires forall i :: 0 <= i < |EndMarkers| ==> !EndsWith(text, EndMarkers[i])
    ensures Cleaned(text + "<|im_end|></s>") == text + "<|im_end|>"
    ensures Cleaned(text + "<|im_end|>") == text
  {
    assert text + "<|im_end|></s>" == (text + "<|im_end|>") + "</s>";
    var t := text + "<|im_end|>";
    assert t[|t| - 1] == '>';
    CleanedDropsEos(t);
    StripKeepsStripped(t);
    CleanedUnrolled(t);
    RemoveMarkerAfter(text, "<|im_end|>");
    assert !EndsWith(text, EndMarkers[1]) && !EndsWith(text, EndMarkers[2]);
  }

  /** A stripped text ending in `'.'` or `'}'` (anything but `'>'`) ends with no marker. */
  lemma NoMarkerAtEnd(text: string)
    requires text != [] && text[|text| - 1] != '>'
    ensures forall i :: 0 <= i < |EndMarkers| ==> !EndsWith(text, EndMarkers[i])
  {
    forall i | 0 <= i < |EndMarkers|
      ensures !EndsWith(text, EndMarkers[i])
    {
      var m := EndMarkers[i];
      assert m[|m| - 1] == '>';
    }
  }

  /** A trailing `"<|im_end|>"` after a text ending in no marker is removed. */
  lemma CleanedDropsImEnd(text: string)
    requires text != [] && IsStripped(text)
    requires forall i :: 0 <= i < |EndMarkers| ==> !EndsWith(text, EndMarkers[i])
    ensures Cleaned(text + "<|im_end|>") == text
  {
    CleanedNotIdempotent(text);
  }

  /** The reply text handed to `_clean_response` for a 200 reply: decode,
      extract by format, then `or ""`. */
  function ReplyText(dedicated: bool, json: Result<Json, PyError>): Result<string, PyError>
  {
    if json.Failure? then Failure(json.error)
    else
      match ReplyValue(dedicated, json.value)
      case Failure(e) => Failure(e)
      case Success(value) => StripInput(value)
  }

  /** The tail of `generate_response`: clean the text and refuse an empty one. */
  function Finish(raw: string, conversationId: string): (r: Result<Generated, Failure>)
    ensures r.Failure? <==> Cleaned(raw) == []
    ensures r.Failure? ==> r.error == Failed(EmptyResponse)
    ensures r.Success? ==> r.value.text != [] && IsStripped(r.value.text) && r.value.conversationId == conversationId
  {
    CleanedIsStrippedPrefix(raw);
    var cleaned := Cleaned(raw);
    if cleaned == [] then Failure(Failed(EmptyResponse)) else Success(Generated(cleaned, conversationId))
  }

  /** `generate_response` with the HTTP call taken out: a timeout is
      reported unwrapped; a non-200 status fails with the upstream's message;
      otherwise the reply text is extracted by format, cleaned and must not
      be empty. */
  function Generate(settings: Settings, conversationId: Option<string>, uuidText: string, upstream: Upstream)
    : (r: Result<Generated, Failure>)
    requires IsUuidText(uuidText)
    ensures upstream.TimedOut? <==> r == Failure(Timeout)
    ensures upstream.Reply? && upstream.status != 200 ==>
      r == Failure(Failed(ApiError(upstream.status, ApiErrorMessage(upstream.status, upstream.text, upstream.json))))
    ensures r.Success? ==>
      upstream.Reply? && upstream.status == 200
      && r.value.text != [] && IsStripped(r.value.text)
      && r.value.conversationId == ConversationId(conversationId, uuidText)
  {
    match upstream
    case TimedOut => Failure(Timeout)
    case TransportFailed(e) => Failure(Failed(Raised(e)))
    case Reply(status, text, json) =>
      if status != 200 then Failure(Failed(ApiError(status, ApiErrorMessage(status, text, json))))
      else Extracted(ReplyText(settings.hfEndpointUrl != [], json), ConversationId(conversationId, uuidText))
  }

  /** A 200 reply: an error raised while extracting its text, or the
      extracted text finished. */
  function Extracted(reply: Result<string, PyError>, conversationId: string): (r: Result<Generated, Failure>)
    ensures reply.Failure? ==> r == Failure(Failed(Raised(reply.error)))
    ensures r.Success? ==> r.value.text != [] && IsStripped(r.value.text) && r.value.conversationId == conversationId
  {
    match reply
    case Failure(e) => Failure(Failed(Raised(e)))
    case Success(raw) => Finish(raw, conversationId)
  }

  /** A chat-completions reply whose first choice's message has `content`. */
  function ChatReply(content: Json): Json
  {
    JObject([("choices", JArray([JObject([("message", JObject([("content", content)]))])]))])
  }

  /** A text-generation reply: a one-element list carrying `generated_text`. */
  function GenerationReply(generated: Json): Json
  {
    JArray([JObject([("generated_text", generated)])])
  }

  lemma ChatReplyText(content: Json)
    ensures ReplyText(false, Success(ChatReply(content))) == StripInput(content)
  {
    var message := JObject([("content", content)]);
    var choice := JObject([("message", message)]);
    var reply := ChatReply(content);
    assert Subscript(reply, Name("choices")) == Success(JArray([choice]));
    assert Subscript(JArray([choice]), Index(0)) == Success(choice);
    assert Subscript(choice, Name("message")) == Success(message);
    assert Subscript(message, Name("content")) == Success(content);
  }

  lemma GenerationReplyText(generated: Json)
    ensures ReplyText(true, Success(GenerationReply(generated))) == StripInput(generated)
  {
    var reply := GenerationReply(generated);
    assert Get(reply.items[0], "generated_text", JString([])) == Success(generated);
  }

  /** A 200 reply whose text could be extracted goes on to be cleaned. */
  lemma GenerateExtracted(settings: Settings, conversationId: Option<string>, uuidText: string,
                          body: string, json: Result<Json, PyError>, raw: string)
    requires IsUuidText(uuidText)
    requires ReplyText(settings.hfEndpointUrl != [], json) == Success(raw)
    ensures Generate(settings, conversationId, uuidText, Reply(200, body, json))
              == Finish(raw, ConversationId(conversationId, uuidText))
  {
    var id := ConversationId(conversationId, uuidText);
    assert Generate(settings, conversationId, uuidText, Reply(200, body, json))
             == Extracted(ReplyText(settings.hfEndpointUrl != [], json), id);
    assert Extracted(Success(raw), id) == Finish(raw, id);
  }

  /** A 200 reply whose text could not be extracted fails with the error raised. */
  lemma GenerateNotExtracted(settings: Settings, conversationId: Option<string>, uuidText: string,
                             body: string, json: Result<Json, PyError>, error: PyError)
    requires IsUuidText(uuidText)
    requires ReplyText(settings.hfEndpointUrl != [], json) == Failure(error)
    ensures Generate(settings, conversationId, uuidText, Reply(200, body, json)) == Failure(Failed(Raised(error)))
  {
  }

  /** A text that cleans to a non-empty one is the reply. */
  lemma FinishCleaned(raw: string, conversationId: string, text: string)
    requires Cleaned(raw) == text && text != []
    ensures Finish(raw, conversationId) == Success(Generated(text, conversationId))
  {
  }

  /** The chat format end to end: the content of the first choice, with its
      end-of-turn marker removed, and the caller's conversation id or a fresh
      eight-character one. */
  lemma ChatEndToEnd(settings: Settings, conversationId: Option<string>, uuidText: string, body: string, text: string)
    requires settings.hfEndpointUrl == []
    requires IsUuidText(uuidText)
    requires text != [] && IsStripped(text)
    requires forall i :: 0 <= i < |EndMarkers| ==> !EndsWith(text, EndMarkers[i])
    ensures Generate(settings, conversationId, uuidText, Reply(200, body, Success(ChatReply(JString(text + "<|im_end|>")))))
              == Success(Generated(text, ConversationId(conversationId, uuidText)))
  {
    var raw := text + "<|im_end|>";
    ChatReplyText(JString(raw));
    GenerateExtracted(settings, conversationId, uuidText, body, Success(ChatReply(JString(raw))), raw);
    CleanedDropsImEnd(text);
    FinishCleaned(raw, ConversationId(conversationId, uuidText), text);
  }

  /** The worked chat example: `"CRISPR-Cas9 is a gene-editing tool.<|im_end|>"`. */
  lemma ChatExample(settings: Settings, conversationId: Option<string>, uuidText: string, body: string, text: string)
    requires settings.hfEndpointUrl == []
    requires IsUuidText(uuidText)
    requires text == "CRISPR-Cas9 is a gene-editing tool."
    ensures Generate(settings, conversationId, uuidText, Reply(200, body, Success(ChatReply(JString(text + "<|im_end|>")))))
              == Success(Generated(text, ConversationId(conversationId, uuidText)))
  {
    assert IsStripped(text);
    NoMarkerAtEnd(text);
    ChatEndToEnd(settings, conversationId, uuidText, body, text);
  }

  /** The dedicated format end to end: the first element's `generated_text`,
      with its end-of-sequence marker removed. */
  lemma DedicatedEndToEnd(settings: Settings, conversationId: Option<string>, uuidText: string, body: string, text: string)
    requires settings.hfEndpointUrl != []
    requires IsUuidText(uuidText)
    requires text != [] && IsStripped(text)
    ensures Generate(settings, conversationId, uuidText, Reply(200, body, Success(GenerationReply(JString(text + "</s>")))))
              == Success(Generated(text, ConversationId(conversationId, uuidText)))
  {
    var raw := text + "</s>";
    GenerationReplyText(JString(raw));
    GenerateExtracted(settings, conversationId, uuidText, body, Success(GenerationReply(JString(raw))), raw);
    CleanedDropsEos(text);
    FinishCleaned(raw, ConversationId(conversationId, uuidText), text);
  }

  /** The worked dedicated example: `[{"generated_text": "It edits DNA.</s>"}]`. */
  lemma DedicatedExample(settings: Settings, conversationId: Option<string>, uuidText: string, body: string, text: string)
    requires settings.hfEndpointUrl != []
    requires IsUuidText(uuidText)
    requires text == "It edits DNA."
    ensures Generate(settings, conversationId, uuidText, Reply(200, body, Success(GenerationReply(JString(text + "</s>")))))
              == Success(Generated(text, ConversationId(conversationId, uuidText)))
  {
    assert IsStripped(text);
    DedicatedEndToEnd(settings, conversationId, uuidText, body, text);
  }

  /** A caller's conversation id comes back verbatim; without one, or with
      an empty one, the id is the first eight characters of the fresh UUID. */
  lemma ConversationIdEchoed(settings: Settings, uuidText: string, upstream: Upstream, given: string)
    requires IsUuidText(uuidText)
    requires given != []
    ensures Generate(settings, Some(given), uuidText, upstream).Success? ==>
      Generate(settings, Some(given), uuidText, upstream).value.conversationId == given
    ensures Generate(settings, None, uuidText, upstream).Success? ==>
      Generate(settings, None, uuidText, upstream).value.conversationId == uuidText[..8]
    ensures Generate(settings, Some([]), uuidText, upstream).Success? ==>
      Generate(settings, Some([]), uuidText, upstream).value.conversationId == uuidText[..8]
  {
  }

  /** The error object of a non-200 reply. */
  function ErrorReply(error: Json): Json
  {
    JObject([("error", error)])
  }

  /** The upstream's `{"error": {"message": m}}` reaches the caller as the
      failure's message, `str(m)`, behind the status (and, in
      `Failure.Message`, the fixed prefixes). */
  lemma UpstreamErrorRelayed(settings: Settings, conversationId: Option<string>, uuidText: string,
                             status: nat, body: string, message: Json)
    requires status != 200
    requires IsUuidText(uuidText)
    ensures Generate(settings, conversationId, uuidText,
                     Reply(status, body, Success(ErrorReply(JObject([("message", message)])))))
              == Failure(Failed(ApiError(status, Str(message))))
  {
    var inner := [("message", message)];
    var reply := ErrorReply(JObject(inner));
    assert Lookup(reply.members, "error") == Some(JObject(inner));
    assert Lookup(inner, "message") == Some(message);
    assert ApiErrorMessage(status, body, Success(reply)) == Str(message);
  }

  /** The decimal text of status 429. */
  lemma StatusText429(status: nat)
    requires status == 429
    ensures IntToString(status) == "429"
  {
    assert status / 10 == 42 && status % 10 == 9;
    assert NatToString(4) == "4";
    assert NatToString(42) == NatToString(4) + [DigitChar(2)];
  }

  /** The rate-limit example: status 429 with `{"error": {"message": "rate limited"}}`. */
  lemma RateLimitedExample(settings: Settings, conversationId: Option<string>, uuidText: string,
                           status: nat, body: string, message: string)
    requires IsUuidText(uuidText)
    requires status == 429
    requires message == "rate limited"
    ensures Generate(settings, conversationId, uuidText,
                     Reply(status, body, Success(ErrorReply(JObject([("message", JString(message))]))))).error.Message()
              == FailurePrefix + "HuggingFace API error (429): " + message
  {
    UpstreamErrorRelayed(settings, conversationId, uuidText, status, body, JString(message));
    StatusText429(status);
    var head := "HuggingFace API error (";
    var tail := "): ";
    assert head + "429" + tail == "HuggingFace API error (429): ";
  }

  /** The fallbacks of a non-200 reply: a flat `error` value is used as it
      is; a body that is not JSON, JSON that is not an object, an object
      without `error` and an `error` object without `message` all give the
      body text, or the status when the body is empty. */
  lemma UpstreamErrorFallbacks(status: nat, body: string, data: Json, error: Json, decodeError: PyError)
    ensures !error.JObject? ==> ApiErrorMessage(status, body, Success(ErrorReply(error))) == Str(error)
    ensures body != [] ==> ApiErrorMessage(status, body, Failure(decodeError)) == body
    ensures ApiErrorMessage(status, [], Failure(decodeError)) == "HTTP " + IntToString(status)
    ensures !data.JObject? || Lookup(data.members, "error").None? ==>
              ApiErrorMessage(status, body, Success(data)) == if body != [] then body else "HTTP " + IntToString(status)
    ensures ApiErrorMessage(status, body, Success(ErrorReply(JObject([]))))
              == if body != [] then body else "HTTP " + IntToString(status)
  {
  }

  /** Dedicated replies, for every decoded reply: a non-empty list whose
      first element is an object, or an object, is read with `.get`; every
      other reply fails with the `AttributeError` of the value `.get` was
      called on. */
  lemma {:induction false} DedicatedReplyPath(data: Json)
    ensures ReplyValue(true, data).Success? <==>
              (data.JArray? && |data.items| > 0 && data.items[0].JObject?) || data.JObject?
    ensures data.JArray? && |data.items| > 0 && data.items[0].JObject? ==>
              ReplyValue(true, data) == Success(match Lookup(data.items[0].members, "generated_text")
                                                case Some(v) => v
                                                case None => JString([]))
    ensures data.JArray? && |data.items| > 0 && !data.items[0].JObject? ==>
              ReplyValue(true, data) == Failure(NoAttribute(data.items[0], "get"))
    ensures data.JObject? ==>
              ReplyValue(true, data) == Success(match Lookup(data.members, "generated_text")
                                                case Some(v) => v
                                                case None => JString(Str(data)))
    ensures !data.JObject? && !(data.JArray? && |data.items| > 0) ==>
              ReplyValue(true, data) == Failure(NoAttribute(data, "get"))
  {
  }

  /** The dedicated format's single-object reply `{"generated_text": g}`. */
  function GenerationObject(generated: Json): Json
  {
    JObject([("generated_text", generated)])
  }

  /** `data.get("generated_text", str(data))` on an object whose key holds a non-empty text. */
  lemma ObjectGenerationReplyText(raw: string)
    requires raw != []
    ensures ReplyText(true, Success(GenerationObject(JString(raw)))) == Success(raw)
  {
    var data := GenerationObject(JString(raw));
    assert Lookup(data.members, "generated_text") == Some(JString(raw));
    DedicatedReplyPath(data);
  }

  /** The dedicated format's second shape end to end: a single object's
      `generated_text`, with its end-of-sequence marker removed. */
  lemma DedicatedObjectEndToEnd(settings: Settings, conversationId: Option<string>, uuidText: string,
                                body: string, text: string)
    requires settings.hfEndpointUrl != []
    requires IsUuidText(uuidText)
    requires text != [] && IsStripped(text)
    ensures Generate(settings, conversationId, uuidText, Reply(200, body, Success(GenerationObject(JString(text + "</s>")))))
              == Success(Generated(text, ConversationId(conversationId, uuidText)))
  {
    var raw := text + "</s>";
    var json := Success(GenerationObject(JString(raw)));
    assert ReplyText(true, json) == Success(raw) by {
      assert |raw| > 0;
      ObjectGenerationReplyText(raw);
    }
    GenerateExtracted(settings, conversationId, uuidText, body, json, raw);
    CleanedDropsEos(text);
    FinishCleaned(raw, ConversationId(conversationId, uuidText), text);
  }

  /** Dedicated replies: an empty list fails. */
  lemma DedicatedEmptyListFails(settings: Settings, conversationId: Option<string>, uuidText: string, body: string)
    requires settings.hfEndpointUrl != []
    requires IsUuidText(uuidText)
    ensures Generate(settings, conversationId, uuidText, Reply(200, body, Success(JArray([]))))
              == Failure(Failed(Raised(NoAttribute(JArray([]), "get"))))
  {
    assert ReplyText(true, Success(JArray([]))) == Failure(NoAttribute(JArray([]), "get"));
  }

  /** Dedicated replies: an object without `generated_text` yields its own
      `str()`, which is not a failure. */
  lemma DedicatedObjectRendered(settings: Settings, conversationId: Option<string>, uuidText: string,
                                body: string, members: seq<(string, Json)>)
    requires settings.hfEndpointUrl != []
    requires IsUuidText(uuidText)
    requires Lookup(members, "generated_text").None?
    ensures Generate(settings, conversationId, uuidText, Reply(200, body, Success(JObject(members))))
              == Success(Generated(Repr(JObject(members)), ConversationId(conversationId, uuidText)))
  {
    var text := Repr(JObject(members));
    ObjectReplyText(members);
    GenerateExtracted(settings, conversationId, uuidText, body, Success(JObject(members)), text);
    ObjectReprCleaned(members);
    FinishCleaned(text, ConversationId(conversationId, uuidText), text);
  }

  /** `data.get("generated_text", str(data))` on an object without that key. */
  lemma ObjectReplyText(members: seq<(string, Json)>)
    requires Lookup(members, "generated_text").None?
    ensures ReplyText(true, Success(JObject(members))) == Success(Repr(JObject(members)))
  {
    var data := JObject(members);
    var text := Repr(data);
    assert Get(data, "generated_text", JString(Str(data))) == Success(JString(text));
  }

  /** The `str()` of an object is left as it is by `_clean_response`. */
  lemma ObjectReprCleaned(members: seq<(string, Json)>)
    ensures Cleaned(Repr(JObject(members))) == Repr(JObject(members))
  {
    var text := Repr(JObject(members));
    assert !IsSpace('{') && !IsSpace('}');
    StripKeepsStripped(text);
    NoMarkerAtEnd(text);
    CleanedWithoutMarker(text);
  }

  /** Dedicated replies: a first element without `generated_text` yields the
      empty text, which fails. */
  lemma DedicatedMissingFieldFails(settings: Settings, conversationId: Option<string>, uuidText: string,
                                   body: string, members: seq<(string, Json)>)
    requires settings.hfEndpointUrl != []
    requires IsUuidText(uuidText)
    requires Lookup(members, "generated_text").None?
    ensures Generate(settings, conversationId, uuidText, Reply(200, body, Success(JArray([JObject(members)]))))
              == Failure(Failed(EmptyResponse))
  {
    assert ReplyText(true, Success(JArray([JObject(members)]))) == Success([]);
    CleanedIsStrippedPrefix([]);
  }

  /** Chat replies: a reply object without `choices` fails with a `KeyError`. */
  lemma ChatMissingChoicesFails(settings: Settings, conversationId: Option<string>, uuidText: string,
                                body: string, members: seq<(string, Json)>)
    requires settings.hfEndpointUrl == []
    requires IsUuidText(uuidText)
    requires Lookup(members, "choices").None?
    ensures Generate(settings, conversationId, uuidText, Reply(200, body, Success(JObject(members))))
              == Failure(Failed(Raised(KeyError("choices"))))
  {
    assert Subscript(JObject(members), Name("choices")) == Failure(KeyError("choices"));
    GenerateNotExtracted(settings, conversationId, uuidText, body, Success(JObject(members)), KeyError("choices"));
  }

  /** The `content` of the first choice's `message`, found by looking each
      member up: `None` when any step of the path is missing or of the
      wrong kind. */
  function ChatContent(data: Json): Option<Json>
  {
    if !data.JObject? then None
    else match Lookup(data.members, "choices")
      case Some(JArray(choices)) =>
        if choices == [] || !choices[0].JObject? then None
        else (match Lookup(choices[0].members, "message")
              case Some(JObject(message)) => Lookup(message, "content")
              case _ => None)
      case _ => None
  }

  /** Chat replies: `data["choices"][0]["message"]["content"]` succeeds
      exactly when every step of the path is there, and then yields the
      `content`; any other reply raises. */
  lemma {:induction false} ChatReplyPath(data: Json)
    ensures ReplyValue(false, data).Success? <==> ChatContent(data).Some?
    ensures ReplyValue(false, data).Success? ==> ReplyValue(false, data).value == ChatContent(data).value
  {
  }

  /** Chat replies: a generation succeeds only when the reply has the
      whole `choices[0].message.content` path. */
  lemma ChatSuccessNeedsContent(settings: Settings, conversationId: Option<string>, uuidText: string,
                                body: string, data: Json)
    requires settings.hfEndpointUrl == []
    requires IsUuidText(uuidText)
    requires Generate(settings, conversationId, uuidText, Reply(200, body, Success(data))).Success?
    ensures ChatContent(data).Some?
  {
    ChatReplyPath(data);
    if ReplyValue(false, data).Failure? {
      GenerateNotExtracted(settings, conversationId, uuidText, body, Success(data), ReplyValue(false, data).error);
    }
  }

  /** Chat replies: a choice without a `message` fails with a `KeyError`. */
  lemma ChatMissingMessageFails(settings: Settings, conversationId: Option<string>, uuidText: string,
                                body: string, choice: seq<(string, Json)>)
    requires settings.hfEndpointUrl == []
    requires IsUuidText(uuidText)
    requires Lookup(choice, "message").None?
    ensures Generate(settings, conversationId, uuidText,
                     Reply(200, body, Success(JObject([("choices", JArray([JObject(choice)]))]))))
              == Failure(Failed(Raised(KeyError("message"))))
  {
    var reply := JObject([("choices", JArray([JObject(choice)]))]);
    assert Subscript(reply, Name("choices")) == Success(JArray([JObject(choice)]));
    assert ReplyText(false, Success(reply)) == Failure(KeyError("message"));
    GenerateNotExtracted(settings, conversationId, uuidText, body, Success(reply), KeyError("message"));
  }

  /** Chat replies: a top-level list is not subscriptable by name, a `TypeError`. */
  lemma ChatListReplyFails(settings: Settings, conversationId: Option<string>, uuidText: string,
                           body: string, items: seq<Json>)
    requires settings.hfEndpointUrl == []
    requires IsUuidText(uuidText)
    ensures Generate(settings, conversationId, uuidText, Reply(200, body, Success(JArray(items))))
              == Failure(Failed(Raised(PyError("list indices must be integers or slices, not str"))))
  {
    GenerateNotExtracted(settings, conversationId, uuidText, body, Success(JArray(items)),
                         PyError("list indices must be integers or slices, not str"));
  }

  /** Chat replies: an empty `choices` list fails with an `IndexError`. */
  lemma ChatNoChoiceFails(settings: Settings, conversationId: Option<string>, uuidText: string, body: string)
    requires settings.hfEndpointUrl == []
    requires IsUuidText(uuidText)
    ensures Generate(settings, conversationId, uuidText, Reply(200, body, Success(JObject([("choices", JArray([]))]))))
              == Failure(Failed(Raised(PyError("list index out of range"))))
  {
    var reply := JObject([("choices", JArray([]))]);
    assert Subscript(reply, Name("choices")) == Success(JArray([]));
    assert ReplyText(false, Success(reply)) == Failure(PyError("list index out of range"));
  }

  /** Chat replies: a `null` content is the empty text, which fails. */
  lemma ChatNullContentFails(settings: Settings, conversationId: Option<string>, uuidText: string, body: string)
    requires settings.hfEndpointUrl == []
    requires IsUuidText(uuidText)
    ensures Generate(settings, conversationId, uuidText, Reply(200, body, Success(ChatReply(JNull))))
              == Failure(Failed(EmptyResponse))
  {
    var json := Success(ChatReply(JNull));
    assert ReplyText(false, json) == Success([]) by {
      ChatReplyText(JNull);
    }
    assert Finish([], ConversationId(conversationId, uuidText)) == Failure(Failed(EmptyResponse)) by {
      CleanedIsStrippedPrefix([]);
    }
    GenerateExtracted(settings, conversationId, uuidText, body, json, []);
  }

  /** Whitespace and then an end-of-sequence marker clean to nothing. */
  lemma CleanedBlankEos(blank: string)
    requires forall k :: 0 <= k < |blank| ==> IsSpace(blank[k])
    ensures Cleaned(blank + "</s>") == []
  {
    var eos := "</s>";
    var t := blank + eos;
    BlankPrefixTrimmed(blank, eos);
    assert IsStripped(eos);
    StripKeepsStripped(eos);
    assert Strip(t) == Strip(eos);
    CleanedDropsEos([]);
    assert [] + eos == eos;
  }

  /** A 200 reply whose text is only whitespace fails as an empty response. */
  lemma BlankReplyFails(settings: Settings, conversationId: Option<string>, uuidText: string,
                        body: string, blank: string)
    requires settings.hfEndpointUrl != []
    requires IsUuidText(uuidText)
    requires forall k :: 0 <= k < |blank| ==> IsSpace(blank[k])
    ensures Generate(settings, conversationId, uuidText, Reply(200, body, Success(GenerationReply(JString(blank)))))
              == Failure(Failed(EmptyResponse))
  {
    GenerationReplyText(JString(blank));
    StripEmptyIffAllSpace(blank);
    CleanedIsStrippedPrefix(blank);
  }

  /** A 200 reply whose text is whitespace and a marker fails as an empty response. */
  lemma {:induction false} BlankMarkerReplyFails(settings: Settings, conversationId: Option<string>, uuidText: string,
                                                 body: string, blank: string)
    requires settings.hfEndpointUrl != []
    requires IsUuidText(uuidText)
    requires forall k :: 0 <= k < |blank| ==> IsSpace(blank[k])
    ensures Generate(settings, conversationId, uuidText, Reply(200, body, Success(GenerationReply(JString(blank + "</s>")))))
              == Failure(Failed(EmptyResponse))
  {
    var eos := "</s>";
    var raw := blank + eos;
    var json := Success(GenerationReply(JString(raw)));
    assert ReplyText(true, json) == Success(raw) by {
      GenerationReplyText(JString(raw));
      assert |raw| >= |eos|;
    }
    assert Finish(raw, ConversationId(conversationId, uuidText)) == Failure(Failed(EmptyResponse)) by {
      CleanedBlankEos(blank);
    }
    GenerateExtracted(settings, conversationId, uuidText, body, json, raw);
  }

  lemma {:induction false} BlankPrefixTrimmed(blank: string, rest: string)
    requires forall k :: 0 <= k < |blank| ==> IsSpace(blank[k])
    requires rest != [] && !IsSpace(rest[0])
    ensures TrimLeft(blank + rest) == rest
  {
    if blank != [] {
      assert (blank + rest)[1..] == blank[1..] + rest;
      BlankPrefixTrimmed(blank[1..], rest);
    }
  }

  class LLMService {
    const settings: Settings
    const model: string
    const useDedicatedEndpoint: bool
    const apiUrl: string
    const headers: seq<(string, string)>

    /** The fields as `__init__` sets them from the settings. */
    predicate Valid()
    {
      model == settings.modelName
      && useDedicatedEndpoint == (settings.hfEndpointUrl != [])
      && apiUrl == EndpointUrl(settings)
      && headers == Headers(settings)
    }

    constructor (settings: Settings)
      ensures this.settings == settings && Valid()
      ensures useDedicatedEndpoint <==> settings.hfEndpointUrl != []
      ensures apiUrl == if settings.hfEndpointUrl != [] then settings.hfEndpointUrl else RouterUrl
    {
      this.settings := settings;
      model := settings.modelName;
      useDedicatedEndpoint := settings.hfEndpointUrl != [];
      apiUrl := if settings.hfEndpointUrl != [] then settings.hfEndpointUrl else RouterUrl;
      headers := [("Authorization", "Bearer " + settings.hfToken), ("Content-Type", "application/json")];
    }

    /** `_clean_response`. */
    method CleanResponse(response: string) returns (cleaned: string)
      ensures cleaned == Cleaned(response)
    {
      cleaned := Strip(response);
      for i := 0 to |EndMarkers|
        invariant cleaned == RemoveMarkers(Strip(response), EndMarkers[..i])
      {
        var token := EndMarkers[i];
        RemoveMarkersStep(Strip(response), EndMarkers, i);
        if EndsWith(cleaned, token) {
          cleaned := Strip(cleaned[..|cleaned| - |token|]);
        }
      }
      assert EndMarkers[..|EndMarkers|] == EndMarkers;
    }

    /** The message of a non-200 reply, worked out as `generate_response`
        does: the body text or the status first, then the `error` member. */
    method ErrorMessage(status: nat, text: string, json: Result<Json, PyError>) returns (errorMsg: string)
      ensures errorMsg == ApiErrorMessage(status, text, json)
    {
      errorMsg := if text != [] then text else "HTTP " + IntToString(status);
      if json.Success? && json.value.JObject? {
        var error := Lookup(json.value.members, "error");
        if error.Some? && error.value.JObject? {
          var inner := Lookup(error.value.members, "message");
          if inner.Some? {
            errorMsg := Str(inner.value);
          }
        } else if error.Some? {
          errorMsg := Str(error.value);
        }
      }
    }

    /** The raw reply value of a decoded 200 reply, by wire format. */
    method ExtractReply(data: Json) returns (responseText: Result<Json, PyError>)
      requires Valid()
      ensures responseText == ReplyValue(settings.hfEndpointUrl != [], data)
    {
      if useDedicatedEndpoint {
        if data.JArray? && |data.items| > 0 {
          responseText := Get(data.items[0], "generated_text", JString([]));
        } else {
          responseText := Get(data, "generated_text", JString(Str(data)));
        }
      } else {
        responseText := Subscript(data, Name("choices"));
        if responseText.Success? { responseText := Subscript(responseText.value, Index(0)); }
        if responseText.Success? { responseText := Subscript(responseText.value, Name("message")); }
        if responseText.Success? { responseText := Subscript(responseText.value, Name("content")); }
      }
    }

    /** The request `generate_response` posts: the payload in the wire
        format of the endpoint, to the endpoint's URL, with the headers and
        the fixed timeout. */
    method BuildRequest(message: string, temperature: Option<real>, maxTokens: Option<int>)
      returns (sent: HttpRequest)
      requires Valid()
      ensures sent == HttpRequest(EndpointUrl(settings), Headers(settings),
                                  RequestPayload(settings, message, temperature, maxTokens), UpstreamTimeout)
    {
      var temp := ResolveParam(temperature, settings.temperature);
      var maxNew := ResolveParam(maxTokens, settings.maxNewTokens);
      var prompt := FormatPrompt(settings.systemPrompt, message);
      var payload;
      if useDedicatedEndpoint {
        payload := TextGeneration(prompt, maxNew, temp, true, false, RepetitionPenalty);
      } else {
        payload := ChatCompletion(model, [ChatMessage("system", settings.systemPrompt), ChatMessage("user", message)],
                                  maxNew, temp);
      }
      sent := HttpRequest(apiUrl, headers, payload, UpstreamTimeout);
    }

    /** `generate_response`: `sent` is the request posted and `upstream`
        what came back for it. */
    method GenerateResponse(message: string, conversationId: Option<string>, temperature: Option<real>,
                            maxTokens: Option<int>, uuidText: string, upstream: Upstream)
      returns (sent: HttpRequest, result: Result<Generated, Failure>)
      requires Valid()
      requires IsUuidText(uuidText)
      ensures sent == HttpRequest(EndpointUrl(settings), Headers(settings),
                                  RequestPayload(settings, message, temperature, maxTokens), UpstreamTimeout)
      ensures result == Generate(settings, conversationId, uuidText, upstream)
    {
      var convId := ConversationId(conversationId, uuidText);
      sent := BuildRequest(message, temperature, maxTokens);

      match upstream {
        case TimedOut =>
          result := Failure(Timeout);
          return;
        case TransportFailed(e) =>
          result := Failure(Failed(Raised(e)));
          return;
        case Reply(status, text, json) =>
          if status != 200 {
            var errorMsg := ErrorMessage(status, text, json);
            result := Failure(Failed(ApiError(status, errorMsg)));
            return;
          }
          if json.Failure? {
            result := Failure(Failed(Raised(json.error)));
            GenerateNotExtracted(settings, conversationId, uuidText, text, json, json.error);
            return;
          }
          var responseText := ExtractReply(json.value);
          if responseText.Failure? {
            result := Failure(Failed(Raised(responseText.error)));
            GenerateNotExtracted(settings, conversationId, uuidText, text, json, responseText.error);
            return;
          }
          var raw := StripInput(responseText.value);
          if raw.Failure? {
            result := Failure(Failed(Raised(raw.error)));
            GenerateNotExtracted(settings, conversationId, uuidText, text, json, raw.error);
            return;
          }
          GenerateExtracted(settings, conversationId, uuidText, text, json, raw.value);
          var cleaned := CleanResponse(raw.value);
          if cleaned == [] {
            result := Failure(Failed(EmptyResponse));
            return;
          }
          result := Success(Generated(cleaned, convId));
      }
    }
  }
}
