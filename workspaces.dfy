/** A workspace: a named conversation with a model, a backend tag and an
    agent, an append-only chat history, and a vector memory made of two
    parallel sequences (embeddings and their texts) and an ANN index whose
    labels are positions in those sequences. */
module Workspaces {
  import opened Wrappers
  import opened QtJson
  import opened VectorIndex
  import opened Agents

  /** Dimension of every embedding. */
  const EmbeddingDim: nat := 128

  /** A float vector; the values are only stored, never computed on. */
  type Embedding = seq<real>

  /** The part of a workspace that its JSON form carries. */
  datatype WorkspaceRecord = WorkspaceRecord(
    name: string, model: string, id: Int32, apiType: string, chatHistory: seq<string>)

  /** What `getNearestText` yields: a text, or `OutOfRange` when the label the
      index returned is not a position of `texts` (the source then indexes
      past the end of the vector, which is undefined behaviour in C++). */
  datatype Nearest = Text(text: string) | OutOfRange(lbl: nat)

  /** The text stored under a label, if there is one. */
  function LookupLabel(texts: seq<string>, lbl: nat): (r: Nearest)
    ensures r.Text? <==> lbl < |texts|
    ensures r.Text? ==> r.text == texts[lbl]
    ensures r.OutOfRange? ==> r.lbl == lbl
  {
    if lbl < |texts| then Text(texts[lbl]) else OutOfRange(lbl)
  }

  /** The JSON object `toJson` builds, given the agent's settings. */
  function EncodeWorkspace(r: WorkspaceRecord, settings: JsonObject): JsonObject
  {
    map[
      "name" := String(r.name),
      "model" := String(r.model),
      "id" := Number(r.id as real),
      "apiType" := String(r.apiType),
      "chatHistory" := Array(StringsToJson(r.chatHistory)),
      "agentSettings" := Object(settings)
    ]
  }

  /** The record `fromJson` reads from a JSON object, with Qt's defaults for
      missing or mistyped fields. */
  function DecodeWorkspace(json: JsonObject): WorkspaceRecord
  {
    WorkspaceRecord(
      ToString(Get(json, "name")),
      ToString(Get(json, "model")),
      ToInt(Get(json, "id")),
      ToString(Get(json, "apiType")),
      JsonToStrings(ToArray(Get(json, "chatHistory"))))
  }

  /** Reading back what was written reproduces name, model, id, backend tag
      and the chat history in order, and hands the agent's settings back. */
  lemma RecordRoundTrip(r: WorkspaceRecord, settings: JsonObject)
    ensures DecodeWorkspace(EncodeWorkspace(r, settings)) == r
    ensures ToObject(Get(EncodeWorkspace(r, settings), "agentSettings")) == settings
  {
    StringsRoundTrip(r.chatHistory);
    IntRoundTrip(r.id);
  }

  class Workspace {
    var name: string
    var model: string
    const id: Int32
    const agent: Agent?
    var apiType: string
    var chatHistory: seq<string>
    var embeddings: seq<Embedding>
    var texts: seq<string>
    var index: AnnIndex

    /** The two parallel sequences always have the same length. */
    ghost predicate Valid()
      reads this
    {
      |embeddings| == |texts|
    }

    /** Every label in the index is a position of `texts`, so a nearest-text
        lookup is always defined. Inserting keeps this; loading an index from
        a file does not. */
    ghost predicate LabelsInRange()
      reads this
    {
      forall l :: l in index.labels ==> l < |texts|
    }

    /** The state the constructor leaves behind. */
    ghost predicate IsNew(name: string, id: Int32, agent: Agent?, apiType: string)
      reads this
    {
      && this.name == name && this.model == "" && this.id == id && this.agent == agent
      && this.apiType == apiType && chatHistory == [] && embeddings == [] && texts == []
      && index == Fresh()
    }

    function Record(): WorkspaceRecord
      reads this
    {
      WorkspaceRecord(name, model, id, apiType, chatHistory)
    }

    constructor (name: string, id: Int32, agent: Agent?, apiType: string)
      ensures IsNew(name, id, agent, apiType)
      ensures Valid() && LabelsInRange()
    {
      this.name := name;
      this.model := "";
      this.id := id;
      this.agent := agent;
      this.apiType := apiType;
      chatHistory := [];
      embeddings := [];
      texts := [];
      index := Fresh();
    }

    /** The getters read the fields that make up the saved record. */
    function GetName(): (r: string)
      reads this
      ensures r == Record().name
    {
      name
    }

    function GetModel(): (r: string)
      reads this
      ensures r == Record().model
    {
      model
    }

    function GetId(): (r: Int32)
      reads this
      ensures r == Record().id
    {
      id
    }

    function GetApiType(): (r: string)
      reads this
      ensures r == Record().apiType
    {
      apiType
    }

    function GetChatHistory(): (r: seq<string>)
      reads this
      ensures r == Record().chatHistory
    {
      chatHistory
    }

    /** The agent is fixed at construction; it is not part of the record. */
    function GetAgent(): (r: Agent?)
      ensures r == agent
    {
      agent
    }

    method SetName(name: string)
      modifies this
      ensures GetName() == name
      ensures Record() == old(Record()).(name := name)
      ensures embeddings == old(embeddings) && texts == old(texts) && index == old(index)
    {
      this.name := name;
    }

    method SetModel(model: string)
      modifies this
      ensures GetModel() == model
      ensures Record() == old(Record()).(model := model)
      ensures embeddings == old(embeddings) && texts == old(texts) && index == old(index)
    {
      this.model := model;
    }

    method SetApiType(apiType: string)
      modifies this
      ensures GetApiType() == apiType
      ensures Record() == old(Record()).(apiType := apiType)
      ensures embeddings == old(embeddings) && texts == old(texts) && index == old(index)
    {
      this.apiType := apiType;
    }

    /** Appends one message at the end of the history. */
    method AddChatMessage(message: string)
      modifies this
      ensures GetChatHistory() == old(chatHistory) + [message]
      ensures Record() == old(Record()).(chatHistory := old(chatHistory) + [message])
      ensures embeddings == old(embeddings) && texts == old(texts) && index == old(index)
    {
      chatHistory := chatHistory + [message];
    }

    /** `toJson`: the chat array is built one message at a time. */
    method ToJson() returns (json: JsonObject)
      requires agent != null
      ensures json == EncodeWorkspace(Record(), agent.GetSettings())
    {
      var chatArray: seq<JsonValue> := [];
      var i := 0;
      while i < |chatHistory|
        invariant 0 <= i <= |chatHistory|
        invariant chatArray == StringsToJson(chatHistory[..i])
      {
        assert chatHistory[..i + 1][..i] == chatHistory[..i];
        chatArray := chatArray + [String(chatHistory[i])];
        i := i + 1;
      }
      assert chatHistory[..i] == chatHistory;
      json := map[];
      json := json["name" := String(name)];
      json := json["model" := String(model)];
      json := json["id" := Number(id as real)];
      json := json["apiType" := String(apiType)];
      json := json["chatHistory" := Array(chatArray)];
      json := json["agentSettings" := Object(agent.GetSettings())];
    }

    /** `fromJson`: a new workspace built from the JSON object, with the
        messages appended one at a time; the agent's settings are overwritten
        from the object's "agentSettings" field. The vector memory of the new
        workspace is empty. */
    static method FromJson(json: JsonObject, agent: Agent?) returns (w: Workspace)
      requires agent != null
      modifies agent
      ensures fresh(w) && w.Valid() && w.LabelsInRange()
      ensures w.Record() == DecodeWorkspace(json)
      ensures w.agent == agent && w.embeddings == [] && w.texts == [] && w.index == Fresh()
      ensures agent.serverURL == ToString(Get(ToObject(Get(json, "agentSettings")), "serverURL"))
      ensures agent.apiKey ==
                if agent.kind == HuggingFace
                then ToString(Get(ToObject(Get(json, "agentSettings")), "apiKey"))
                else old(agent.apiKey)
    {
      var name := ToString(Get(json, "name"));
      var model := ToString(Get(json, "model"));
      var id := ToInt(Get(json, "id"));
      var apiType := ToString(Get(json, "apiType"));
      w := new Workspace(name, id, agent, apiType);
      w.SetModel(model);
      var chatArray := ToArray(Get(json, "chatHistory"));
      var i := 0;
      while i < |chatArray|
        invariant 0 <= i <= |chatArray|
        invariant w.Record() == WorkspaceRecord(name, model, id, apiType, JsonToStrings(chatArray[..i]))
        invariant w.agent == agent && w.embeddings == [] && w.texts == [] && w.index == Fresh()
        invariant fresh(w) && agent.apiKey == old(agent.apiKey)
      {
        assert chatArray[..i + 1][..i] == chatArray[..i];
        w.AddChatMessage(ToString(chatArray[i]));
        i := i + 1;
      }
      assert chatArray[..i] == chatArray;
      agent.SetSettings(ToObject(Get(json, "agentSettings")));
    }

    /** `addEmbedding`: both sequences grow by one, then the embedding is
        inserted into the index under the label `|texts| - 1`, the old length.
        When the insert throws (the index is full), the sequences have already
        grown and are not rolled back; `ok` is false and the index is as before. */
    method AddEmbedding(embedding: Embedding, text: string) returns (ok: bool)
      requires Valid() && |embedding| == EmbeddingDim
      modifies this
      ensures Valid()
      ensures embeddings == old(embeddings) + [embedding] && texts == old(texts) + [text]
      ensures ok <==> (|old(texts)| in old(index.labels) || old(index.Count()) < old(index.capacity))
      ensures ok ==> index == AddPoint(old(index), |old(texts)|).value
      ensures ok ==> |old(texts)| in index.labels && texts[|old(texts)|] == text
      ensures !ok ==> index == old(index)
      ensures old(LabelsInRange()) ==> LabelsInRange()
      ensures Record() == old(Record())
    {
      embeddings := embeddings + [embedding];
      texts := texts + [text];
      var inserted := AddPoint(index, |texts| - 1);
      if inserted.Some? {
        index := inserted.value;
        ok := true;
      } else {
        ok := false;
      }
    }

    /** `getNearestText`: the index returns some inserted label (which one
        depends on float distances, not modelled), or nothing when empty. */
    method GetNearestText(query: Embedding) returns (r: Nearest)
      requires |query| == EmbeddingDim
      ensures index.IsEmpty() ==> r == Text("")
      ensures !index.IsEmpty() ==> exists l :: l in index.labels && r == LookupLabel(texts, l)
      ensures LabelsInRange() ==> r.Text?
      ensures LabelsInRange() && !index.IsEmpty() ==> r.text in texts
    {
      if index.IsEmpty() {
        r := Text("");
      } else {
        assert index.labels[0] in index.labels;
        var l :| l in index.labels;
        r := LookupLabel(texts, l);
      }
    }

    /** `saveIndex`: the index as the file will hold it. */
    method SaveIndex() returns (file: AnnIndex)
      ensures file == index
    {
      file := index;
    }

    /** `loadIndex`: a fresh empty index replaces the old one, then the file
        is read into it; `file` is what the file holds, `None` when it
        cannot be read (the exception then leaves the fresh empty index).
        Texts and embeddings are left as they were. */
    method LoadIndex(file: Option<AnnIndex>) returns (ok: bool)
      requires Valid()
      modifies this
      ensures Valid() && ok == file.Some?
      ensures index == if ok then file.value else Fresh()
      ensures embeddings == old(embeddings) && texts == old(texts) && Record() == old(Record())
    {
      index := Fresh();
      if file.Some? {
        index := file.value;
        ok := true;
      } else {
        ok := false;
      }
    }

    /** `getEmbedding`: a placeholder that gives 128 zeros whatever the text. */
    function GetEmbedding(text: string): (e: Embedding)
      ensures |e| == EmbeddingDim
      ensures forall i :: 0 <= i < |e| ==> e[i] == 0.0
    {
      seq(EmbeddingDim, _ => 0.0)
    }
  }

  /** Saving a workspace to JSON and reading it back with the same agent
      reproduces its record and leaves the agent's settings as they were. */
  method JsonRoundTrip(w: Workspace) returns (w': Workspace)
    requires w.agent != null
    modifies w.agent
    ensures fresh(w') && w'.Record() == w.Record() && w'.agent == w.agent
    ensures w.agent.serverURL == old(w.agent.serverURL) && w.agent.apiKey == old(w.agent.apiKey)
  {
    var json := w.ToJson();
    RecordRoundTrip(w.Record(), w.agent.GetSettings());
    w' := Workspace.FromJson(json, w.agent);
  }

  /** Loading an index whose labels run past the stored texts makes the
      nearest-text lookup read out of range: here a new workspace (no texts)
      loads an index holding label 0. */
  method StaleIndexLookup(agent: Agent?) returns (r: Nearest)
    ensures r == OutOfRange(0)
  {
    var w := new Workspace("w", 1, agent, "Ollama");
    var loaded := w.LoadIndex(Some(AnnIndex([0], IndexCapacity)));
    r := w.GetNearestText(seq(EmbeddingDim, _ => 0.0));
  }
}
