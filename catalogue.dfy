/** The static OpenRouter model catalogue: short aliases mapped to fully
    qualified upstream model identifiers, the per-provider defaults, and the
    alias lookup performed by `setModel`. */
module Catalogue {
  import opened AITypes

  const OpenRouterModels: map<string, string> := map[
    "gpt-4" := "openai/gpt-4",
    "gpt-4-turbo" := "openai/gpt-4-turbo-preview",
    "claude-sonnet-4" := "anthropic/claude-sonnet-4",
    "deepseek-coder" := "deepseek/deepseek-coder-33b-instruct",
    "gemini-pro" := "google/gemini-pro",
    "llama-3-70b" := "meta-llama/llama-3-70b-instruct",
    "mixtral-8x7b" := "mistralai/mixtral-8x7b-instruct",
    "phind-codellama" := "phind/phind-codellama-34b-v2"
  ]

  /** The model used when nothing else is chosen: the expansion of "gpt-4". */
  const DefaultModel: string := "openai/gpt-4"

  /** The identifier `setModel(key)` stores: the catalogue expansion of an
      alias, otherwise the key itself, on the assumption that it is already a
      fully qualified identifier. Only the catalogue's own entries are
      aliases (see `SetModelAsWritten` for what the source does instead). */
  function ResolveModel(key: string): (model: string)
    ensures key in OpenRouterModels ==> model == OpenRouterModels[key]
    ensures key !in OpenRouterModels ==> model == key
  {
    if key in OpenRouterModels then OpenRouterModels[key] else key
  }

  /** No full identifier is itself an alias, so nothing resolves twice. */
  lemma CatalogueValuesAreNotAliases()
    ensures forall k :: k in OpenRouterModels ==> OpenRouterModels[k] !in OpenRouterModels
  {
  }

  /** Resolving is idempotent: whatever `setModel` stores is already a final
      identifier, and setting it again changes nothing. */
  lemma ResolveModelIdempotent(key: string)
    ensures ResolveModel(ResolveModel(key)) == ResolveModel(key)
  {
  }

  /** The model `setProvider` switches to, or None when it keeps the current one. */
  function ProviderDefault(p: Provider): (m: Option<string>)
    ensures p == OpenAI ==> m == Some("openai/gpt-4")
    ensures p == Anthropic ==> m == Some("anthropic/claude-sonnet-4")
    ensures p == Local ==> m == None
    ensures m.Some? ==> m.value in OpenRouterModels.Values
  {
    match p
    case OpenAI => Some(OpenRouterModels["gpt-4"])
    case Anthropic => Some(OpenRouterModels["claude-sonnet-4"])
    case Local => None
  }

  // ---------------------------------------------------------------------
  // The lookup as written: the catalogue is a plain object literal, so
  // indexing it with the name of a member inherited from Object.prototype
  // yields that (truthy) member instead of undefined.

  /** What indexing a plain object literal can yield. */
  datatype JsValue = Str(s: string) | Undefined | InheritedMember(name: string)

  /** Property names every plain object inherits from Object.prototype. */
  const ObjectPrototypeMembers: set<string> := {
    "constructor", "hasOwnProperty", "isPrototypeOf", "propertyIsEnumerable",
    "toLocaleString", "toString", "valueOf", "__proto__",
    "__defineGetter__", "__defineSetter__", "__lookupGetter__", "__lookupSetter__"
  }

  /** `OPENROUTER_MODELS[key]`. */
  function CatalogueIndex(key: string): JsValue
  {
    if key in OpenRouterModels then Str(OpenRouterModels[key])
    else if key in ObjectPrototypeMembers then InheritedMember(key)
    else Undefined
  }

  /** `OPENROUTER_MODELS[key] || key`, the value `setModel` stores as written. */
  function SetModelAsWritten(key: string): (v: JsValue)
    ensures !v.Undefined?
    ensures v.InheritedMember? <==> key !in OpenRouterModels && key in ObjectPrototypeMembers
    ensures v.Str? && key in OpenRouterModels ==> v.s == OpenRouterModels[key]
  {
    match CatalogueIndex(key)
    case Str(s) => if s != "" then Str(s) else Str(key)
    case InheritedMember(name) => InheritedMember(name)
    case Undefined => Str(key)
  }

  /** As written, `setModel("toString")` stores Object.prototype.toString,
      not the string "toString". */
  lemma SetModelAsWrittenStoresInheritedMember()
    ensures SetModelAsWritten("toString") == InheritedMember("toString")
    ensures SetModelAsWritten("toString") != Str(ResolveModel("toString"))
  {
  }

  /** Outside the inherited member names, the source's lookup and
      `ResolveModel` agree. */
  lemma SetModelAsWrittenAgrees(key: string)
    requires key !in ObjectPrototypeMembers
    ensures SetModelAsWritten(key) == Str(ResolveModel(key))
  {
  }
}
