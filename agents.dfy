/** The LLM agents a workspace talks to. The source declares an abstract
    agent interface with one subclass per backend; here one class carries
    the backend as a constant tag, and each operation dispatches on it. Only
    the state the agents keep themselves is modelled: the server URL (both
    backends) and the API key (HuggingFace only). The Ollama client library
    instance an Ollama agent forwards to is not part of this model. */
module Agents {
  import opened QtJson

  datatype AgentKind = Ollama | HuggingFace

  /** `getAgentType()`: the backend name each agent reports. */
  function AgentType(kind: AgentKind): (t: string)
    ensures t == "Ollama" <==> kind == Ollama
    ensures t == "HuggingFace" <==> kind == HuggingFace
  {
    match kind
    case Ollama => "Ollama"
    case HuggingFace => "HuggingFace"
  }

  class Agent {
    const kind: AgentKind
    var serverURL: string
    /** Present in the HuggingFace agent only; an Ollama agent never reads or writes it. */
    var apiKey: string

    /** Both agents are default-constructed: empty URL and key. */
    constructor (kind: AgentKind)
      ensures this.kind == kind && serverURL == "" && apiKey == ""
    {
      this.kind := kind;
      serverURL := "";
      apiKey := "";
    }

    /** `getSettings()`: a JSON object holding the server URL and, for
        HuggingFace, the API key. */
    function GetSettings(): (s: JsonObject)
      reads this
      ensures Get(s, "serverURL") == String(serverURL)
      ensures kind == HuggingFace ==> Get(s, "apiKey") == String(apiKey)
      ensures s.Keys == if kind == Ollama then {"serverURL"} else {"serverURL", "apiKey"}
    {
      match kind
      case Ollama => map["serverURL" := String(serverURL)]
      case HuggingFace => map["serverURL" := String(serverURL), "apiKey" := String(apiKey)]
    }

    /** `setSettings(settings)`: read the fields back with `toString()`, so a
        missing or non-string field becomes "". Given what `GetSettings`
        returned, it leaves the agent as it was. */
    method SetSettings(settings: JsonObject)
      modifies this
      ensures serverURL == ToString(Get(settings, "serverURL"))
      ensures apiKey == if kind == HuggingFace then ToString(Get(settings, "apiKey")) else old(apiKey)
      ensures settings == old(GetSettings()) ==> serverURL == old(serverURL) && apiKey == old(apiKey)
    {
      serverURL := ToString(Get(settings, "serverURL"));
      if kind == HuggingFace {
        apiKey := ToString(Get(settings, "apiKey"));
      }
    }

    /** `setServerURL(url)`: overwrites the URL and nothing else. */
    method SetServerURL(url: string)
      modifies this
      ensures serverURL == url && apiKey == old(apiKey)
    {
      serverURL := url;
    }
  }
}
