/** Value types of the assistant service: messages, providers and the
    configuration record, as declared by the service interface (ai.ts). */
module AITypes {

  datatype Option<+T> = None | Some(value: T)

  /** The role a chat message is sent under. */
  datatype Role = User | Assistant | System

  /** One chat message. The creation timestamp the source attaches is not
      part of this model: it is never read back by the service. */
  datatype Message = Message(role: Role, content: string)

  /** The provider enumeration; every provider is reached through OpenRouter. */
  datatype Provider = OpenAI | Anthropic | Local

  /** The configuration record. `model`, `temperature` and `maxTokens` are
      optional fields of the interface; the temperature is a floating-point
      value that the service only stores and forwards, so a `real` stands in. */
  datatype Config = Config(
    apiKey: string,
    provider: Provider,
    model: Option<string>,
    temperature: Option<real>,
    maxTokens: Option<real>)

  /** JavaScript truthiness of a possibly absent string: absent and "" are falsy. */
  predicate Truthy(v: Option<string>)
  {
    v.Some? && v.value != ""
  }

  /** The `v || fallback` idiom on a possibly absent string. */
  function OrElse(v: Option<string>, fallback: string): string
  {
    if Truthy(v) then v.value else fallback
  }

  /** The `v ?? fallback` idiom: only an absent (nullish) value falls back. */
  function Coalesce<T>(v: Option<T>, fallback: T): T
  {
    match v
    case Some(x) => x
    case None => fallback
  }
}
