# genetic-api: the API-key gate and the inference adapter, in Dafny

genetic-api is a small HTTP service that answers genetics questions. It
forwards each question to a language model hosted on HuggingFace. This
project models the service's core and proves properties about that model.

- **The API-key gate** (`verify_api_key`, module `Auth`). It lets a request
  through or refuses it, using the `X-API-Key` header and the configured key
  list. When no key is configured, every caller is let in as `"dev-mode"`.
- **The settings** (module `Config`). The settings are read once and never
  change, so they are a value. Their two derived lists, `api_keys_list` and
  `cors_origins_list`, are functions on that value. Both split on commas,
  strip each piece and drop the empty ones.
- **The request and response bodies** (module `Schemas`):
  - the bounds on a chat request: a message of 1 to 4096 characters, a
    temperature in [0, 2] and a token limit in [1, 2048];
  - the required and optional fields of the success body and the error body.
- **The inference adapter** (`LLMService`, module `LlmService`). A class
  whose constructor picks the wire format and the URL from the settings.
  `GenerateResponse` does the following, in order:
  - resolves the sampling parameters and the conversation id;
  - builds the request for a dedicated text-generation endpoint (a ChatML
    prompt) or for the shared chat-completions router;
  - takes the upstream's answer as an input;
  - turns a non-200 status into an API error;
  - extracts the reply text according to the format;
  - cleans the text (`CleanResponse`: strip, then remove each end-of-turn
    marker at most once, in a fixed order);
  - refuses an empty result.

  Every failure except a timeout is wrapped behind `"Failed to generate
  response: "`.

Supporting modules:

- `Text`: Python's `str.strip` over the full Unicode whitespace set of
  `str.isspace`, `endswith`, `split(",")`/`",".join` and `str(int)`.
- `PyJson`: decoded JSON values, with the Python operations the adapter
  applies to them. These are `dict.get`, subscripting with the CPython
  `KeyError`/`IndexError`/`TypeError` texts, truthiness, `str` and `repr`.
- `Wrappers`: `Option` and `Result`.

Exceptions become `Result` values. The HTTP round trip is the `Upstream`
input. The random UUID is a parameter whose text has the UUID shape.

Three behaviours of the code are worth stating on their own:

- **Marker removal is not idempotent.** `x<|im_end|></s>` cleans to
  `x<|im_end|>`, and a second pass gives `x`, because each marker is tried
  once, in a fixed order (`CleanedNotIdempotent`).
- **The `"dev-mode"` append at app/auth.py:24 has no effect.** `api_keys_list`
  is a property that builds a new list on every access, so the checks read
  a list without `"dev-mode"`. `"dev-mode"` is refused unless it is
  configured (`DevModeNotABackdoor`), and the gate keeps no state between
  calls.
- **The upstream timeout is always 180 seconds.** The `request_timeout`
  setting (300 by default) is never read.

## Model

| member | source | states |
|---|---|---|
| Text.Strip | app/services/llm_service.py:166 | `strip()` leaves no whitespace at either end; it keeps a prefix of the left-trimmed text and drops only whitespace after it |
| Text.StripIdempotent | app/services/llm_service.py:166-171 | `strip()` is idempotent: stripping an already stripped text changes nothing |
| Text.SplitOnComma | app/config.py:55 | `split(",")` gives at least one piece, and no piece holds a comma |
| Text.SplitJoin | app/config.py:55 | splitting the comma-join of comma-free pieces gives the pieces back |
| Text.JoinSplit | app/config.py:55 | joining the pieces of a split gives back the original string |
| Config.Settings.ApiKeysList | app/config.py:50-55 | an empty setting yields no keys; every key is non-empty, stripped and comma-free |
| Config.Settings.CorsOriginsList | app/config.py:43-48 | an empty or lone `"*"` setting yields `["*"]`; every origin is non-empty, stripped and comma-free |
| Config.KeepStrippedNonEmpty | app/config.py:55 | the comprehension keeps at most as many items as pieces, each non-empty and stripped |
| Config.ParseCommaList | app/config.py:55 | the shared parser yields only non-empty, stripped, comma-free items |
| Config.KeptComeFromPieces | app/config.py:55 | every kept item is the stripped form of some piece and holds only characters of the pieces |
| Config.KeepDistributes | app/config.py:55 | the comprehension keeps left-to-right order: it distributes over concatenation |
| Config.KeptPieceListed | app/config.py:55 | every piece that does not strip to nothing is kept, stripped |
| Config.KeptPiece | app/config.py:55 | what the comprehension keeps of one piece; its properties are those of `Config.KeepStrippedNonEmpty`, `Config.KeptComeFromPieces` and `Config.KeptPieceListed` |
| Config.KeepIdentity | app/config.py:55 | pieces that are already stripped and non-empty all survive unchanged |
| Config.ParseJoinRoundTrip | app/config.py:55 | writing clean keys as `k1,k2,...` and parsing gives the same list |
| Config.ApiKeysGuardRedundant | app/config.py:53-55 | the empty-setting guard agrees with the comprehension |
| Config.CorsParsesLikeApiKeys | app/config.py:46-55 | apart from the `""`/`"*"` case, both properties are the same parser |
| Config.BlankCorsYieldsNoOrigins | app/config.py:46-48 | a whitespace-only `cors_origins` yields no origin, not `["*"]` |
| Auth.AuthOutcome.StatusCode | app/auth.py:29-39 | both rejections carry status 401 |
| Auth.AuthOutcome.Detail | app/auth.py:29-39 | the missing-key and invalid-key details are the two fixed texts |
| Auth.Decide | app/auth.py:26-41 | accepted iff the list is empty or the non-empty key is listed; missing iff the list is non-empty and the key is absent or empty; invalid iff the key is non-empty and unlisted; identity is `"dev-mode"` or the key |
| Auth.VerifyApiKey | app/auth.py:11-41 | the same three iff-conditions over `api_keys_list`; with no key configured the outcome is `"dev-mode"` whatever the header |
| Auth.DevModeNotABackdoor | app/auth.py:24-35 | the appended `"dev-mode"` is refused when unconfigured, though it would be accepted were the append seen by the checks |
| Auth.EmptyHeaderIsMissing | app/auth.py:29-39 | an empty or absent header is reported missing, never invalid |
| Auth.PieceAccepted | app/auth.py:35-41 | every non-blank comma piece of `API_KEYS`, stripped (`"k1, k2"` configures `k2`), opens the gate with itself as identity |
| Auth.ConfiguredKeyAccepted | app/auth.py:35-41 | a setting written as the plain comma-join of clean keys opens the gate for each of them, with itself as identity |
| Schemas.ChatRequest.Violations | app/models/schemas.py:7-13 | no violation iff the request is valid; each bound's violation is reported iff that bound is broken; the conversation id is unconstrained |
| Schemas.RequiredString | app/models/schemas.py:32-34 | a required field is read iff present with a string value |
| Schemas.ChatRequest.Valid | app/models/schemas.py:10-13 | the field bounds; `Schemas.ChatRequest.Violations` is empty exactly when they hold |
| Schemas.ParseChatResponse | app/models/schemas.py:29-34 | a body is accepted iff it is an object holding `response`, `conversation_id` and `model` as strings, in any order and beside any other members; the fields read are those values |
| Schemas.ParseErrorResponse | app/models/schemas.py:56-60 | a body is accepted iff it is an object with a string `detail` and an `error_code` that is absent, null or a string; the fields read are those values |
| Schemas.ChatResponseRoundTrip | app/models/schemas.py:29-34 | a success body written out reads back unchanged |
| Schemas.ErrorResponseRoundTrip | app/models/schemas.py:56-60 | an error body written out reads back unchanged |
| Schemas.ChatResponseFieldsRequired | app/models/schemas.py:32-34 | a success body lacking any of the three fields is refused |
| Schemas.ErrorResponseFields | app/models/schemas.py:59-60 | `detail` is required; a body without `error_code` is accepted |
| LlmService.ResolveParam | app/services/llm_service.py:54-55 | a given value is used, even zero; only an absent one takes the default |
| LlmService.ConversationId | app/services/llm_service.py:58 | a non-empty given id is kept; an absent or empty one becomes the first 8 hex digits of the UUID |
| LlmService.FormatPrompt | app/services/llm_service.py:154 | the prompt is the system turn, the system prompt and the user turn, then the message verbatim, then the assistant turn, with no separators |
| LlmService.PromptRoundTrip | app/services/llm_service.py:154 | the message sits verbatim in the ChatML prompt and reads back, and only its own prompt reads back to it |
| LlmService.PromptInjective | app/services/llm_service.py:154 | distinct messages give distinct prompts |
| LlmService.EndpointUrl | app/services/llm_service.py:22-26 | the dedicated URL iff one is configured, the router URL otherwise |
| LlmService.RequestPayload | app/services/llm_service.py:69-91 | text generation iff dedicated, with the message's prompt and fixed sampling flags; otherwise model, `[system, user]` in order, resolved limits |
| LlmService.Headers | app/services/llm_service.py:27-30 | the bearer-token and JSON content-type headers; `LlmService.LLMService.constructor` and `LlmService.LLMService.BuildRequest` state where they are used |
| LlmService.ApiErrorMessage | app/services/llm_service.py:104-110 | the message of a non-200 reply; `LlmService.UpstreamErrorRelayed` states the `error.message` branch for any `message` value, and `LlmService.UpstreamErrorFallbacks` the flat `error` value and every fallback (undecodable body, non-object JSON, object without `error`, `error` object without `message`) |
| LlmService.ReplyValue | app/services/llm_service.py:117-126 | the raw reply value by format; `LlmService.ChatReplyPath` and `LlmService.DedicatedReplyPath` state, for every decoded reply, when each format's extraction succeeds, what it yields and which error it raises otherwise |
| LlmService.ReplyText | app/services/llm_service.py:114-129 | decode, extract, then `or ""`; `LlmService.ChatReplyText` and `LlmService.GenerationReplyText` state it for the two reply shapes |
| LlmService.DedicatedReplyPath | app/services/llm_service.py:119-123 | for every decoded reply: the dedicated extraction succeeds iff the reply is a non-empty list whose first element is an object, or an object; it yields the first element's `generated_text` or `""`, or the object's `generated_text` or its `str()`; a non-object first element, an empty list or any other value fails with the `AttributeError` of `.get` on it |
| LlmService.StripInput | app/services/llm_service.py:129 | a false value becomes `""`, a string stays, any other value fails |
| LlmService.RemoveMarker | app/services/llm_service.py:170-171 | one marker removed, then whitespace again; `LlmService.RemoveMarkerAfter` and `LlmService.RemoveMarkerMismatch` state when it removes and when it does not |
| LlmService.RemoveMarkers | app/services/llm_service.py:169-171 | the markers tried in order; `LlmService.RemoveMarkersPrefix` states that it leaves a stripped prefix |
| LlmService.Cleaned | app/services/llm_service.py:166-173 | what `_clean_response` returns; the `Cleaned...` lemmas below state its properties |
| LlmService.CleanedIsStrippedPrefix | app/services/llm_service.py:166-173 | the cleaned text is stripped, no longer than the input, and a prefix of the stripped input |
| LlmService.CleanedIsSlice | app/services/llm_service.py:166-173 | the cleaned text is the contiguous slice of the input that starts after its leading whitespace |
| LlmService.CleanedWithoutMarker | app/services/llm_service.py:169-173 | an input ending, once stripped, in no marker is only stripped |
| LlmService.CleanedUnrolled | app/services/llm_service.py:169-171 | the three end-of-turn markers (ChatML end, end-of-text, `</s>`) are tried once each, in that order |
| LlmService.CleanedDropsEos | app/services/llm_service.py:169-171 | a trailing `</s>` after stripped text is removed |
| LlmService.CleanedRemovesMarkerOnce | app/services/llm_service.py:169-171 | of two trailing `</s>` only one is removed |
| LlmService.CleanedNotIdempotent | app/services/llm_service.py:169-171 | text followed by the ChatML end marker and `</s>` cleans to the text with the ChatML end marker, which cleans to the text: cleaning is not idempotent |
| LlmService.CleanedDropsImEnd | app/services/llm_service.py:169-171 | a trailing ChatML end marker after marker-free text is removed |
| LlmService.Finish | app/services/llm_service.py:129-135 | fails with the empty-response cause iff the cleaned text is empty; success carries non-empty stripped text and the id |
| LlmService.Extracted | app/services/llm_service.py:114-135 | an extraction error is raised as it is; success carries non-empty stripped text and the id |
| LlmService.Generate | app/services/llm_service.py:32-142 | a timeout iff the upstream timed out; any non-200 status gives the API error with its message; a success needs status 200 and carries non-empty stripped text and the resolved id |
| LlmService.ChatEndToEnd | app/services/llm_service.py:118-135 | a chat reply of marker-free stripped text followed by the ChatML end marker succeeds with that text |
| LlmService.ChatExample | app/services/llm_service.py:118-135 | a chat reply `CRISPR-Cas9 is a gene-editing tool.` followed by the ChatML end marker yields that sentence |
| LlmService.DedicatedEndToEnd | app/services/llm_service.py:118-135 | a dedicated reply `[{"generated_text": text + "</s>"}]` succeeds with `text` |
| LlmService.DedicatedObjectEndToEnd | app/services/llm_service.py:118-135 | a dedicated reply that is the single object `{"generated_text": text + "</s>"}` succeeds with `text` |
| LlmService.DedicatedExample | app/services/llm_service.py:118-135 | `It edits DNA.</s>` yields `It edits DNA.` |
| LlmService.ConversationIdEchoed | app/services/llm_service.py:58 | on success a non-empty given id comes back verbatim; an absent or empty one comes back as the UUID's first 8 characters |
| LlmService.Failure.Message | app/services/llm_service.py:137-142 | a timeout is reported with its own text; every other failure starts with `Failed to generate response: ` |
| LlmService.Cause.Text | app/services/llm_service.py:112 | the text of the raised exception; `LlmService.RateLimitedExample` states it in full for an API error |
| LlmService.UpstreamErrorRelayed | app/services/llm_service.py:104-112 | a non-200 reply with the body `{"error": {"message": m}}`, for any JSON value `m`, fails with that status and `str(m)` (`m` itself when it is a string) |
| LlmService.RateLimitedExample | app/services/llm_service.py:104-112 | a 429 reply reads `Failed to generate response: HuggingFace API error (429): rate limited` |
| LlmService.UpstreamErrorFallbacks | app/services/llm_service.py:105-110 | for the body `{"error": e}` with `e` not an object the message is `str(e)`; for an undecodable body it is the body text, or `HTTP <code>` when the text is empty; for JSON that is not an object, an object without `error`, and `{"error": {}}` it is that same fallback |
| LlmService.DedicatedEmptyListFails | app/services/llm_service.py:120-123 | an empty list from the dedicated endpoint fails (a list has no `get`) |
| LlmService.DedicatedObjectRendered | app/services/llm_service.py:123 | an object without `generated_text` yields its own rendering as the reply, not a failure |
| LlmService.DedicatedMissingFieldFails | app/services/llm_service.py:120-132 | a list whose first item lacks `generated_text` yields `""` and fails as empty |
| LlmService.ChatMissingChoicesFails | app/services/llm_service.py:126 | a chat reply without `choices` fails with `KeyError` |
| LlmService.ChatReplyPath | app/services/llm_service.py:126 | for every decoded reply, `data["choices"][0]["message"]["content"]` succeeds iff each step of that path is present with the right kind, and then yields that `content` |
| LlmService.ChatSuccessNeedsContent | app/services/llm_service.py:118-135 | a chat generation succeeds only when the reply has the whole `choices[0].message.content` path |
| LlmService.ChatMissingMessageFails | app/services/llm_service.py:126 | a choice without `message` fails with `KeyError` |
| LlmService.ChatListReplyFails | app/services/llm_service.py:126 | a top-level list fails with the `TypeError` of a list indexed by a string |
| LlmService.ChatNoChoiceFails | app/services/llm_service.py:126 | an empty `choices` list fails with `IndexError` |
| LlmService.ChatNullContentFails | app/services/llm_service.py:126-132 | a null `content` becomes `""` and fails as empty |
| LlmService.BlankReplyFails | app/services/llm_service.py:129-132 | a whitespace-only reply fails as empty |
| LlmService.BlankMarkerReplyFails | app/services/llm_service.py:129-132 | whitespace followed by `</s>` fails as empty |
| LlmService.LLMService.constructor | app/services/llm_service.py:17-30 | the dedicated format iff a URL is configured; the URL chosen accordingly; the bearer-token headers |
| LlmService.LLMService.CleanResponse | app/services/llm_service.py:156-173 | the loop returns the cleaned text that the cleaning lemmas describe |
| LlmService.LLMService.ErrorMessage | app/services/llm_service.py:104-110 | the error message is the one `ApiErrorMessage` defines |
| LlmService.LLMService.ExtractReply | app/services/llm_service.py:117-126 | the extracted value is the one the endpoint's format defines |
| LlmService.LLMService.BuildRequest | app/services/llm_service.py:61-98 | the request goes to `EndpointUrl` with the headers, the payload of `RequestPayload` and the 180 s timeout |
| LlmService.LLMService.GenerateResponse | app/services/llm_service.py:32-142 | sends that request and returns exactly `Generate`'s outcome for the upstream's answer |

## Left out

- The HTTP POST itself, `httpx.AsyncClient` and async/await
  (app/services/llm_service.py:93-98). The upstream's answer is the `Upstream`
  input: a timeout, another transport error, or a status with its body text
  and decoded JSON.
- JSON decoding. A decoded value, or the decoder's error, is part of the
  input. JSON objects are taken to have distinct keys, and a lookup takes
  the first match.
- `uuid.uuid4()`. Its text is a parameter, required to have the UUID shape.
- Logging and traceback formatting. They are side effects only.
- The `get_llm_service` singleton (app/services/llm_service.py:176-185) and
  the `lru_cache` on `get_settings` (app/config.py:58-61). The settings are
  one immutable value, handed to the constructor.
- Float semantics. Temperatures and timeouts are `real`. A JSON number
  carries its Python `repr` text for rendering. NaN and infinities are not
  modelled.
- `repr` of non-ASCII and non-printable characters is not modelled:
  `QuoteString` escapes only quotes, backslashes and control characters.
- Pydantic's coercion and its error objects. `Schemas.ChatRequest.Violations`
  names the field and the error type of each broken bound, and nothing more.
- `HealthResponse` (app/models/schemas.py:49-53) has no logic.
- app/main.py, app/routes/chat.py and app/routes/health.py are not part of
  this model. They are framework wiring: documentation pages, CORS
  middleware, and turning an exception into a 500 reply.
- Repeated calls give the same outcome (app/auth.py:24-26). This needs no
  lemma: `Auth.VerifyApiKey` is a function of the settings and the header.
