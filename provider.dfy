/** The transcript types and the provider abstraction of provider/mod.rs:
    chat entries, the history the session appends to, API-key resolution and
    the choice of backend. */
module Provider {
  import opened Wrappers
  import Tools

  datatype ChatRole = User | Model | System

  datatype ChatData = ChatData(role: ChatRole, text: string)

  datatype FileUploadData = FileUploadData(text: string, relativeFilepath: string)

  datatype ChatHistoryItem = FileUpload(file: FileUploadData) | Chat(chat: ChatData)

  /** `ChatData::user`. */
  function UserChat(text: string): (c: ChatData)
    ensures c.role == User && c.text == text
  {
    ChatData(User, text)
  }

  /** `ChatData::model`. */
  function ModelChat(text: string): (c: ChatData)
    ensures c.role == Model && c.text == text
  {
    ChatData(Model, text)
  }

  /** `ChatRole::display`: the title of a chat bubble. */
  function Display(role: ChatRole): (title: string)
    ensures title == "User" <==> role == User
    ensures title == "LLM" <==> role == Model
    ensures title == "System Instructions" <==> role == System
  {
    match role
    case User => "User"
    case Model => "LLM"
    case System => "System Instructions"
  }

  /** Distinct roles have distinct titles. */
  lemma DisplayInjective(a: ChatRole, b: ChatRole)
    requires Display(a) == Display(b)
    ensures a == b
  {
  }

  /** The history after `append_chat_in_context(index, text)`. ASSUMED, since
      the backend's history implementation is not part of this model: the text
      is concatenated to the chat at `index`; an index past the end, or one
      holding a file upload, leaves the history as it is. */
  function AppendedAt(history: seq<ChatHistoryItem>, index: nat, text: string): (r: seq<ChatHistoryItem>)
    ensures |r| == |history|
    ensures forall k :: 0 <= k < |r| && k != index ==> r[k] == history[k]
    ensures index < |history| && history[index].Chat? ==>
      r[index] == Chat(ChatData(history[index].chat.role, history[index].chat.text + text))
    ensures !(index < |history| && history[index].Chat?) ==> r == history
  {
    if index < |history| && history[index].Chat? then
      var entry := history[index].chat;
      history[index := Chat(entry.(text := entry.text + text))]
    else
      history
  }

  /** The provider as the session sees it: its history and its capability flags. */
  class Provider {
    var history: seq<ChatHistoryItem>
    const flags: Tools.LLMTools

    constructor (history: seq<ChatHistoryItem>, flags: Tools.LLMTools)
      ensures this.history == history && this.flags == flags
    {
      this.history := history;
      this.flags := flags;
    }

    /** `add_chat_to_context`. ASSUMED: appends `item` and returns its index. */
    method AddChatToContext(item: ChatHistoryItem) returns (index: Option<nat>)
      modifies this
      ensures history == old(history) + [item]
      ensures index == Some(|old(history)|)
    {
      index := Some(|history|);
      history := history + [item];
    }

    /** `append_chat_in_context`. ASSUMED: as `AppendedAt` says. */
    method AppendChatInContext(index: nat, text: string)
      modifies this
      ensures history == AppendedAt(old(history), index, text)
    {
      history := AppendedAt(history, index, text);
    }
  }

  /** The backend options of the configuration. */
  datatype OnlineProviderOpts = OnlineProviderOpts(url: string, model: string)

  datatype OnlineProvider = OnlineProvider(apiKey: string, url: string, model: string)

  /** Why `fetch_api_key` found no key. */
  datatype KeyError = NoApiKey | KeyFetchError(reason: string)

  /** The panics of provider construction. */
  datatype PanicReason =
    | NoKeyAndNoPrompt
    | KeychainFailure(reason: string)
    | KeyPromptFailed
    | UnknownProvider(name: string)
    | HttpClientFailed

  /** A value, or the panic that constructing it raises. */
  datatype Built<T> = Built(value: T) | Panicked(reason: PanicReason)

  /** `OnlineProvider::new`. `fetched` is the key store's answer; `prompt` is
      `None` when there is no CLI handler, else what its key prompt returned. */
  function NewOnlineProvider(config: OnlineProviderOpts, fetched: Result<string, KeyError>,
                             prompt: Option<Result<string, string>>): (r: Built<OnlineProvider>)
    ensures fetched.Ok? ==> r == Built(OnlineProvider(fetched.value, config.url, config.model))
    ensures fetched == Err(NoApiKey) && prompt.Some? && prompt.value.Ok? ==>
      r == Built(OnlineProvider(prompt.value.value, config.url, config.model))
    ensures fetched == Err(NoApiKey) && prompt.Some? && prompt.value.Err? ==> r == Panicked(KeyPromptFailed)
    ensures fetched == Err(NoApiKey) && prompt.None? ==> r == Panicked(NoKeyAndNoPrompt)
    ensures fetched.Err? && fetched.error.KeyFetchError? ==> r == Panicked(KeychainFailure(fetched.error.reason))
    ensures r.Built? ==> r.value.url == config.url && r.value.model == config.model
  {
    var key: Built<string> :=
      match fetched {
        case Ok(k) => Built(k)
        case Err(NoApiKey) =>
          match prompt {
            case Some(Ok(k)) => Built(k)
            case Some(Err(_)) => Panicked(KeyPromptFailed)
            case None => Panicked(NoKeyAndNoPrompt)
          }
        case Err(KeyFetchError(reason)) => Panicked(KeychainFailure(reason))
      };
    match key
    case Built(k) => Built(OnlineProvider(k, config.url, config.model))
    case Panicked(why) => Panicked(why)
  }

  /** A key read from the store is used as it is, whether or not a prompt is available. */
  lemma StoredKeyWins(config: OnlineProviderOpts, key: string, p1: Option<Result<string, string>>,
                      p2: Option<Result<string, string>>)
    ensures NewOnlineProvider(config, Ok(key), p1) == NewOnlineProvider(config, Ok(key), p2)
    ensures NewOnlineProvider(config, Ok(key), p1).Built?
    ensures NewOnlineProvider(config, Ok(key), p1).value.apiKey == key
  {
  }

  const GeminiProviderName := "gemini"

  /** The backends; Gemini is the only one. */
  datatype Backend = Gemini(online: OnlineProvider)

  /** `Provider::new` with `GeminiProvider::new`: the provider string chooses
      the backend before any key is looked up, and an unknown string panics.
      The Gemini backend resolves its key first and then builds its HTTP
      client; `clientBuilds` says whether that build succeeds, and its
      failure panics. */
  function NewBackend(name: string, config: OnlineProviderOpts, fetched: Result<string, KeyError>,
                      prompt: Option<Result<string, string>>, clientBuilds: bool): (r: Built<Backend>)
    ensures name != GeminiProviderName ==> r == Panicked(UnknownProvider(name))
    ensures name == GeminiProviderName ==>
      match NewOnlineProvider(config, fetched, prompt) {
        case Built(online) => r == if clientBuilds then Built(Gemini(online)) else Panicked(HttpClientFailed)
        case Panicked(why) => r == Panicked(why)
      }
  {
    if name == GeminiProviderName then
      match NewOnlineProvider(config, fetched, prompt)
      case Built(online) => if clientBuilds then Built(Gemini(online)) else Panicked(HttpClientFailed)
      case Panicked(why) => Panicked(why)
    else
      Panicked(UnknownProvider(name))
  }

  /** With a stored key, a backend is built exactly for "gemini" when its HTTP
      client builds; a key failure panics before the client is tried. */
  lemma OnlyGeminiBuilds(name: string, config: OnlineProviderOpts, key: string,
                         prompt: Option<Result<string, string>>, clientBuilds: bool)
    ensures NewBackend(name, config, Ok(key), prompt, clientBuilds).Built? <==> name == "gemini" && clientBuilds
    ensures NewBackend("gemini", config, Err(NoApiKey), Option.None, clientBuilds) == Panicked(NoKeyAndNoPrompt)
  {
  }
}
