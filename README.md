# AI assistant service: a Dafny model

This project models `AIService`, the client core of an editor's AI assistant.
The service holds an OpenRouter API key and a configuration record (provider,
model, temperature, token limit), and re-reads them when settings change. It
owns an in-memory conversation history. `chat` sends the history's last ten
entries, behind a fixed system prompt and an optional fenced code context, to
the OpenRouter chat-completion endpoint. It appends the reply and fires it on a
"message received" event. `processFile` and `complete` are one-shot requests
that leave the history alone. Every upstream failure is turned into a returned
string and never rethrown.

Modules (one per concern of `src/vs/workbench/contrib/ai/common/aiService.ts`
and the types it uses from `ai.ts`):

- `AITypes` (`ai_types.dfy`): roles, messages, providers and the configuration
  record, plus the `||` and `??` defaulting idioms on possibly absent values.
- `Text` (`text.dfy`): `String.prototype.includes` and the decimal rendering of
  a status code.
- `Catalogue` (`catalogue.dfy`): the alias catalogue, per-provider defaults and
  the `setModel` lookup, both as corrected and as written (see Findings).
- `Requests` (`requests.dfy`): the message lists sent by `chat` and `processFile`.
- `OpenRouter` (`openrouter.dfy`): the body sent upstream and the fail-soft
  classification of the reply. The network is a parameter: a total function
  `transport: Request -> Reply` from the request the service would send to the
  reply it gets. That makes `makeOpenRouterCall` a pure function
  `Call(apiKey, config, messages, transport)`.
- `Service` (`ai_service.dfy`): the class `AIService`. Its fields are `apiKey`,
  `config` and `conversationHistory`, plus a ghost `fired` log of the
  emitter. Its methods update these in place.

Behaviours of the code worth knowing, all modelled as written:

- `chat` appends and fires the reply even when it is an error text.
- `setProvider(Local)` keeps the current model instead of resetting it.
- An empty `context` string is treated as absent.
- The key is kept in a separate field, so `getConfig().apiKey` is always `""`.
- `sendMessage` fires the reply a second time after `chat` has fired it.

One exception is not modelled as written. `setModel` uses the corrected alias
lookup, not the source's object-literal lookup, which also finds names inherited
from `Object.prototype` (see Findings and `Service.AIService.SetModel` under Left out).

## Model

| member | source | states |
|---|---|---|
| `Catalogue.ResolveModel` | src/vs/workbench/contrib/ai/common/aiService.ts:96-98 | a catalogue alias becomes its full identifier; any other key is stored verbatim |
| `Catalogue.CatalogueValuesAreNotAliases` | src/vs/workbench/contrib/ai/common/aiService.ts:29-45 | no full identifier in the catalogue is itself an alias |
| `Catalogue.ResolveModelIdempotent` | src/vs/workbench/contrib/ai/common/aiService.ts:29-45 | resolving a resolved model changes nothing, so every stored model is final |
| `Catalogue.ProviderDefault` | src/vs/workbench/contrib/ai/common/aiService.ts:86-94 | OpenAI defaults to `openai/gpt-4`, Anthropic to `anthropic/claude-sonnet-4`, Local has no default; defaults are catalogue values |
| `Catalogue.SetModelAsWritten` | src/vs/workbench/contrib/ai/common/aiService.ts:97 | the lookup as written never yields undefined; it yields an inherited member exactly for a non-alias key that names an `Object.prototype` member; an alias gives its expansion |
| `Catalogue.SetModelAsWrittenStoresInheritedMember` | src/vs/workbench/contrib/ai/common/aiService.ts:97 | as written, `setModel("toString")` stores the inherited `Object.prototype` member instead of the string |
| `Catalogue.SetModelAsWrittenAgrees` | src/vs/workbench/contrib/ai/common/aiService.ts:97 | for any key not inherited from `Object.prototype`, the source's lookup equals `ResolveModel` |
| `Text.NatToString` | src/vs/workbench/contrib/ai/common/aiService.ts:169 | the status code in the error text is a non-empty digit string with no leading zero |
| `Text.NatToStringRoundTrip` | src/vs/workbench/contrib/ai/common/aiService.ts:169 | reading the rendered digits back gives the status code |
| `Requests.Window` | src/vs/workbench/contrib/ai/common/aiService.ts:120 | `slice(-10)` keeps min(10, n) entries (which ones is stated by `ChatRequestLayout`) |
| `Requests.ChatRequest` | src/vs/workbench/contrib/ai/common/aiService.ts:112-122 | a chat request holds between 1 and 12 messages |
| `Requests.ChatRequestLayout` | src/vs/workbench/contrib/ai/common/aiService.ts:112-122 | system prompt first; the fenced context second exactly when the context is truthy; then the last min(10, n) history entries in order, ending with the newest |
| `Requests.EmptyContextIsAbsent` | src/vs/workbench/contrib/ai/common/aiService.ts:116-118 | an empty context string gives the same request as no context |
| `Requests.BuildChatMessages` | src/vs/workbench/contrib/ai/common/aiService.ts:112-122 | the push loop over the window builds exactly `ChatRequest` |
| `Requests.ProcessFileRequest` | src/vs/workbench/contrib/ai/common/aiService.ts:100-106 | exactly two messages: the expert-assistant system persona, then one user message containing both the file content and the instruction |
| `OpenRouter.RequestBody` | src/vs/workbench/contrib/ai/common/aiService.ts:145-150 | the request carries the key and the messages unchanged; its model is never empty (a falsy model becomes `openai/gpt-4`); stored temperature and token limit are forwarded |
| `OpenRouter.Call` | src/vs/workbench/contrib/ai/common/aiService.ts:137-188 | always resolves to a non-empty text; without a key it returns the instructional prompt whatever the transport would answer, so no request is made |
| `OpenRouter.UpstreamError` | src/vs/workbench/contrib/ai/common/aiService.ts:164-168 | a body that is not JSON, or has no `error`, yields no upstream message; an error object gives its `message`, or `[object Object]` when that is empty; an error string gives itself when non-empty, and the falsy `""` gives no message, so the status line is used; an upstream message is never empty |
| `OpenRouter.Attempt` | src/vs/workbench/contrib/ai/common/aiService.ts:144-179 | the `try` block returns text exactly for a 2xx JSON reply with truthy content, and that text is the content; every error it throws for an HTTP reply, except the JSON parse failure of a 2xx reply, is an `Error` with a non-empty message |
| `OpenRouter.Caught` | src/vs/workbench/contrib/ai/common/aiService.ts:181-187 | the catch clause yields the network error or `Error: ` followed by the caught text |
| `OpenRouter.Classify` | src/vs/workbench/contrib/ai/common/aiService.ts:144-187 | once a key is present, every reply, including a transport failure, resolves to a non-empty text; nothing escapes as an exception |
| `OpenRouter.CaughtKinds` | src/vs/workbench/contrib/ai/common/aiService.ts:181-187 | a caught message becomes the network error exactly when it contains `fetch`; otherwise it is returned as `Error: <msg>` |
| `OpenRouter.StatusTakesPrecedence` | src/vs/workbench/contrib/ai/common/aiService.ts:163-167 | 401, 402 and 429 give their fixed messages whatever the body says |
| `OpenRouter.HttpErrorReported` | src/vs/workbench/contrib/ai/common/aiService.ts:168-169 | another failing status reports the body's truthy error message (or the stringified error), otherwise `OpenRouter API error: <status> <statusText>` |
| `OpenRouter.SuccessContent` | src/vs/workbench/contrib/ai/common/aiService.ts:172-179 | a 2xx reply returns non-empty content unchanged; absent or empty content gives `Error: Unexpected response format from OpenRouter`; an unparsable body is reported through the catch clause |
| `OpenRouter.TransportFailureClassified` | src/vs/workbench/contrib/ai/common/aiService.ts:181-187 | an exception thrown by `fetch` becomes the network error exactly when its text mentions `fetch`; otherwise it is returned as `Error: <text>` |
| `OpenRouter.FailedFetchIsNetworkError` | src/vs/workbench/contrib/ai/common/aiService.ts:183-185 | a `TypeError: Failed to fetch` from the transport becomes `Network error. Please check your connection.` |
| `OpenRouter.FailSoft` | src/vs/workbench/contrib/ai/common/aiService.ts:137-188 | every call resolves to the prompt, the network error, a text starting `Error: `, or the non-empty content of a successful reply |
| `Service.TurnsExtend` | src/vs/workbench/contrib/ai/common/aiService.ts:108-131 | a chat turn keeps the history an alternation of user message and assistant reply |
| `Service.Reread` | src/vs/workbench/contrib/ai/common/aiService.ts:60-73 | a change re-reads only the affected fields; an unset or empty model and nullish numbers keep the previous values; the record's key and provider never change |
| `Service.RereadIdempotent` | src/vs/workbench/contrib/ai/common/aiService.ts:60-73 | delivering the same change twice equals delivering it once |
| `Service.AIService.constructor` | src/vs/workbench/contrib/ai/common/aiService.ts:47-58 | the key is the setting or `""`; the model is the setting or `openai/gpt-4`; temperature and token limit are the setting or 0.7 and 2000; provider OpenAI; history and event log empty |
| `Service.AIService.OnDidChangeConfiguration` | src/vs/workbench/contrib/ai/common/aiService.ts:60-73 | an affected key becomes the setting or `""`; the record becomes `Reread` of the old one; history and events unchanged |
| `Service.AIService.SetApiKey` | src/vs/workbench/contrib/ai/common/aiService.ts:82-84 | replaces the request key only; the configuration record, with its `""` key, is unchanged |
| `Service.AIService.SetProvider` | src/vs/workbench/contrib/ai/common/aiService.ts:86-94 | stores the provider; the model becomes `ProviderDefault(provider)` when there is one (OpenAI, Anthropic), Local keeps the model; key, temperature and token limit untouched |
| `Service.AIService.SetModel` | src/vs/workbench/contrib/ai/common/aiService.ts:96-98 | only the model changes, to `ResolveModel(key)` |
| `Service.AIService.ProcessFile` | src/vs/workbench/contrib/ai/common/aiService.ts:100-106 | returns the call's text for the two-message request; it modifies nothing, so history and event log are unchanged |
| `Service.AIService.Chat` | src/vs/workbench/contrib/ai/common/aiService.ts:108-131 | sends the request for the history plus the new user message; the history grows by exactly that user message and the assistant reply, on failure too; one event, carrying the returned text, is fired |
| `Service.AIService.SendMessage` | src/vs/workbench/contrib/ai/common/aiService.ts:76-80 | as `Chat`, but the reply is fired twice |
| `Service.AIService.Complete` | src/vs/workbench/contrib/ai/common/aiService.ts:133-135 | sends the prompt as the only message, without a system preamble or history; modifies nothing |
| `Service.AIService.GetAvailableModels` | src/vs/workbench/contrib/ai/common/aiService.ts:190 | returns the alias catalogue |
| `Service.AIService.ClearHistory` | src/vs/workbench/contrib/ai/common/aiService.ts:191 | empties the history; configuration and event log unchanged |
| `Service.AIService.GetConfig` | src/vs/workbench/contrib/ai/common/aiService.ts:192 | a value snapshot of the record, so the caller cannot change the service through it; its key is always `""` and its optional fields are always set |

## Left out

- The endpoint URL, the `Content-Type`, `HTTP-Referer` and `X-Title` headers, and JSON serialisation are left out. The request is the `Request` value handed to the transport. Only the bearer token stands for the headers.
- Response parsing is reduced to the two members the service reads. These are `error` and `choices[0].message.content`. Content that is not a string, and thrown values that are not `Error` objects, are not modelled.
- The `showTokenUsage` read and all console logging (aiService.ts:51, 173-175, 182) are left out. They do not affect any result.
- Message timestamps (`new Date()`) are left out. The service itself never reads them, but the chat view shows the timestamp of each fired message (aiChatView.ts:346). The ghost `fired` log does not carry it.
- The `Emitter`/`Disposable` machinery is replaced by the ghost `fired` log.
- Asynchrony is left out: each call is atomic. So the model does not capture concurrent chats interleaving their appends, or a `clearHistory` racing an in-flight `chat`.
- Temperature and the token limit are JavaScript numbers that are only stored and forwarded (ai.ts:41-42, aiService.ts:148-149). Both are `real` here, so a fractional token limit such as 1500.5 is sent as it is. Floating-point rounding is not modelled.
- The settings schema bounds are not enforced by the service, so they are not invariants here. These are temperature 0 to 2 and token limit 100 to 32000, in aiConfiguration.ts.
- `affectsConfiguration` is modelled as membership of the key in the affected set. Its prefix matching on parent sections is not modelled.
- `Service.AIService.SetModel`: stores `ResolveModel(key)`, the corrected lookup, not the source's lookup. For the names inherited from `Object.prototype` (such as `"toString"`), the source stores the inherited member instead. That as-written behaviour is modelled separately by `Catalogue.SetModelAsWritten`; see the Findings row.
- `Service.AIService.GetAvailableModels`: returns the catalogue as a value. The source returns its own mutable object, so a caller could alter the catalogue through it. That aliasing is not modelled.
- The chat view, the editor button, command and keybinding registration, and the settings schema are not part of this model. They are UI and registration around calls into the service.

## Findings

| source | as written | input that shows it | evidently intended | confidence | as-written member | corrected member |
|---|---|---|---|---|---|---|
| src/vs/workbench/contrib/ai/common/aiService.ts:97 | `OPENROUTER_MODELS[modelKey] \|\| modelKey` indexes a plain object literal, which inherits `Object.prototype` | `setModel("toString")` (also `"constructor"`, `"valueOf"`, `"__proto__"`, …) stores the inherited function or object as the model | a key that is not an alias is stored verbatim | not executed; high (standard JavaScript property lookup) | `Catalogue.SetModelAsWrittenStoresInheritedMember` | `Catalogue.ResolveModel` |
