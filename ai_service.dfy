/** The assistant service: configuration state updated in place, the owned
    conversation history, and the "message received" event stream, with the
    network call delegated to `OpenRouter.Call`. */
module Service {
  import opened AITypes
  import opened Catalogue
  import opened Requests
  import opened OpenRouter

  /** The settings the service reads ('optqo.ai.apiKey', 'optqo.ai.model',
      'optqo.ai.temperature', 'optqo.ai.maxTokens'); None is an unset value. */
  datatype Settings = Settings(
    apiKey: Option<string>,
    model: Option<string>,
    temperature: Option<real>,
    maxTokens: Option<real>)

  /** The setting keys a configuration-change notification can affect. */
  datatype SettingKey = ApiKeySetting | ModelSetting | TemperatureSetting | MaxTokensSetting

  /** A history made of complete turns: a user message, then the assistant's reply. */
  ghost predicate Turns(history: seq<Message>)
  {
    && |history| % 2 == 0
    && forall i :: 0 <= i < |history| ==> history[i].role == (if i % 2 == 0 then User else Assistant)
  }

  /** One more turn keeps the history made of complete turns. */
  lemma TurnsExtend(history: seq<Message>, question: string, answer: string)
    requires Turns(history)
    ensures Turns(history + [Message(User, question), Message(Assistant, answer)])
  {
  }

  /** The configuration after a change notification. */
  function Reread(c: Config, affected: set<SettingKey>, s: Settings): (d: Config)
    // the key lives outside the record and the provider is not a setting
    ensures d.apiKey == c.apiKey && d.provider == c.provider
    // unaffected fields never change
    ensures ModelSetting !in affected ==> d.model == c.model
    ensures TemperatureSetting !in affected ==> d.temperature == c.temperature
    ensures MaxTokensSetting !in affected ==> d.maxTokens == c.maxTokens
    // an absent or empty model, or a nullish number, keeps the previous value
    ensures !Truthy(s.model) ==> d.model == c.model
    ensures s.temperature.None? ==> d.temperature == c.temperature
    ensures s.maxTokens.None? ==> d.maxTokens == c.maxTokens
    // an affected field with a value takes it
    ensures ModelSetting in affected && Truthy(s.model) ==> d.model == s.model
    ensures TemperatureSetting in affected && s.temperature.Some? ==> d.temperature == s.temperature
    ensures MaxTokensSetting in affected && s.maxTokens.Some? ==> d.maxTokens == s.maxTokens
  {
    c.(model := if ModelSetting in affected && Truthy(s.model) then s.model else c.model,
       temperature := if TemperatureSetting in affected && s.temperature.Some? then s.temperature else c.temperature,
       maxTokens := if MaxTokensSetting in affected && s.maxTokens.Some? then s.maxTokens else c.maxTokens)
  }

  /** Delivering the same notification twice has the effect of delivering it once. */
  lemma RereadIdempotent(c: Config, affected: set<SettingKey>, s: Settings)
    ensures Reread(Reread(c, affected, s), affected, s) == Reread(c, affected, s)
  {
  }

  class AIService {
    /** The key sent upstream; `config.apiKey` is never written. */
    var apiKey: string
    var config: Config
    var conversationHistory: seq<Message>
    /** Every message fired on the "message received" event, in order. */
    ghost var fired: seq<Message>

    ghost predicate Valid()
      reads this
    {
      && config.apiKey == ""
      && config.model.Some? && config.temperature.Some? && config.maxTokens.Some?
      && Turns(conversationHistory)
      && forall i :: 0 <= i < |fired| ==> fired[i].role == Assistant
    }

    /** Initial read of the settings: an unset or empty key becomes "", an
        unset or empty model the catalogue's "gpt-4", unset numbers 0.7 and 2000. */
    constructor (settings: Settings)
      ensures Valid()
      ensures apiKey == OrElse(settings.apiKey, "")
      ensures config == Config("", OpenAI, Some(OrElse(settings.model, DefaultModel)),
        Some(Coalesce(settings.temperature, DefaultTemperature)),
        Some(Coalesce(settings.maxTokens, DefaultMaxTokens)))
      ensures conversationHistory == [] && fired == []
    {
      config := Config("", OpenAI, Some(DefaultModel), Some(DefaultTemperature), Some(DefaultMaxTokens));
      conversationHistory := [];
      fired := [];
      apiKey := "";
      new;
      apiKey := OrElse(settings.apiKey, "");
      config := config.(model := Some(OrElse(settings.model, OpenRouterModels["gpt-4"])));
      config := config.(temperature := Some(Coalesce(settings.temperature, DefaultTemperature)));
      config := config.(maxTokens := Some(Coalesce(settings.maxTokens, DefaultMaxTokens)));
    }

    /** The configuration-change handler: re-reads each affected setting. */
    method OnDidChangeConfiguration(affected: set<SettingKey>, settings: Settings)
      requires Valid()
      modifies this
      ensures Valid()
      ensures apiKey == if ApiKeySetting in affected then OrElse(settings.apiKey, "") else old(apiKey)
      ensures config == Reread(old(config), affected, settings)
      ensures conversationHistory == old(conversationHistory) && fired == old(fired)
    {
      if ApiKeySetting in affected {
        apiKey := OrElse(settings.apiKey, "");
      }
      if ModelSetting in affected {
        config := config.(model := Some(OrElse(settings.model, config.model.value)));
      }
      if TemperatureSetting in affected {
        config := config.(temperature := Some(Coalesce(settings.temperature, config.temperature.value)));
      }
      if MaxTokensSetting in affected {
        config := config.(maxTokens := Some(Coalesce(settings.maxTokens, config.maxTokens.value)));
      }
    }

    /** Replaces the key used for requests; the configuration record keeps "". */
    method SetApiKey(key: string)
      requires Valid()
      modifies this
      ensures Valid()
      ensures apiKey == key
      ensures config == old(config) && config.apiKey == ""
      ensures conversationHistory == old(conversationHistory) && fired == old(fired)
    {
      apiKey := key;
    }

    /** Stores the provider; OpenAI and Anthropic switch to their catalogue
        default model, Local keeps the current one. */
    method SetProvider(provider: Provider)
      requires Valid()
      modifies this
      ensures Valid()
      ensures config.provider == provider
      ensures config.model == if ProviderDefault(provider).Some? then ProviderDefault(provider) else old(config.model)
      ensures config.apiKey == old(config.apiKey)
      ensures config.temperature == old(config.temperature) && config.maxTokens == old(config.maxTokens)
      ensures apiKey == old(apiKey)
      ensures conversationHistory == old(conversationHistory) && fired == old(fired)
    {
      config := config.(provider := provider);
      var default := ProviderDefault(provider);
      if default.Some? {
        config := config.(model := default);
      }
    }

    /** Stores the catalogue expansion of an alias, or the key verbatim. */
    method SetModel(modelKey: string)
      requires Valid()
      modifies this
      ensures Valid()
      ensures config == old(config).(model := Some(ResolveModel(modelKey)))
      ensures apiKey == old(apiKey)
      ensures conversationHistory == old(conversationHistory) && fired == old(fired)
    {
      config := config.(model := Some(ResolveModel(modelKey)));
    }

    /** A one-shot request about a file: reads no history and changes nothing. */
    method ProcessFile(content: string, instruction: string, transport: Request -> Reply) returns (r: string)
      ensures r == Call(apiKey, config, ProcessFileRequest(content, instruction), transport)
      ensures r != ""
    {
      r := Call(apiKey, config, ProcessFileRequest(content, instruction), transport);
    }

    /** Appends the user message, sends the system prompt, optional context
        and the last ten history entries, then appends and fires the reply,
        whatever it says, and returns it. */
    method Chat(message: string, context: Option<string>, transport: Request -> Reply) returns (response: string)
      requires Valid()
      modifies this
      ensures Valid()
      ensures apiKey == old(apiKey) && config == old(config)
      ensures response == Call(apiKey, config,
        ChatRequest(old(conversationHistory) + [Message(User, message)], context), transport)
      ensures conversationHistory
        == old(conversationHistory) + [Message(User, message), Message(Assistant, response)]
      ensures fired == old(fired) + [Message(Assistant, response)]
    {
      var userMessage := Message(User, message);
      conversationHistory := conversationHistory + [userMessage];
      var messages := BuildChatMessages(conversationHistory, context);
      response := Call(apiKey, config, messages, transport);
      var aiMessage := Message(Assistant, response);
      TurnsExtend(old(conversationHistory), message, response);
      conversationHistory := conversationHistory + [aiMessage];
      assert conversationHistory == old(conversationHistory) + [userMessage, aiMessage];
      fired := fired + [aiMessage];
      assert fired[|fired| - 1].role == Assistant;
    }

    /** Chats, then fires the reply a second time. */
    method SendMessage(text: string, context: Option<string>, transport: Request -> Reply)
      requires Valid()
      modifies this
      ensures Valid()
      ensures apiKey == old(apiKey) && config == old(config)
      ensures var reply := Call(apiKey, config,
          ChatRequest(old(conversationHistory) + [Message(User, text)], context), transport);
        && conversationHistory == old(conversationHistory) + [Message(User, text), Message(Assistant, reply)]
        && fired == old(fired) + [Message(Assistant, reply), Message(Assistant, reply)]
    {
      var response := Chat(text, context, transport);
      fired := fired + [Message(Assistant, response)];
    }

    /** A bare prompt with no system preamble and no history; changes nothing. */
    method Complete(prompt: string, transport: Request -> Reply) returns (r: string)
      ensures r == Call(apiKey, config, [Message(User, prompt)], transport)
      ensures r != ""
    {
      r := Call(apiKey, config, [Message(User, prompt)], transport);
    }

    /** The model catalogue. */
    method GetAvailableModels() returns (models: map<string, string>)
      ensures models == OpenRouterModels
    {
      models := OpenRouterModels;
    }

    /** Empties the history; the event log and configuration are untouched. */
    method ClearHistory()
      requires Valid()
      modifies this
      ensures Valid()
      ensures conversationHistory == []
      ensures apiKey == old(apiKey) && config == old(config) && fired == old(fired)
    {
      conversationHistory := [];
    }

    /** A snapshot of the configuration; being a value, changing it cannot
        affect the service. Its key is always "", since the key is held apart. */
    method GetConfig() returns (snapshot: Config)
      requires Valid()
      ensures snapshot == config
      ensures snapshot.apiKey == ""
      ensures snapshot.model.Some? && snapshot.temperature.Some? && snapshot.maxTokens.Some?
    {
      snapshot := config;
    }
  }
}
