# Workspace memory, workspace table and agent helpers of a desktop LLM chat client

This project models, in Dafny, the logic at the heart of a Qt desktop chat
client that talks to Ollama and HuggingFace backends:

- **Workspace** (`src/workspace.cpp`): a named conversation holding a model
  name, an id, a backend tag (`apiType`), an agent, an append-only chat
  history, and a vector memory. The memory is two parallel sequences,
  `embeddings` and `texts`, plus an hnswlib ANN index whose labels are
  positions in those sequences. The workspace serialises its record to a
  JSON object and back.
- **WorkspaceManager** (`src/workspace_manager.cpp`): a map from id to
  workspace, with a counter that hands out ids 1, 2, 3, ... and never goes
  back.
- **Helpers** (`src/mainwindow_helpers.cpp`): `createAgent` (backend tag to
  agent), `getNextWorkspaceId` (largest key plus one), and
  `verifyModelStartup` (a per-model status cache in front of the server's
  "running models" and "load model" calls).
- **Ollama agent** (`src/ollama_agent.cpp`): the chunk buffer of `generate`
  and the one-field settings object.

Modules, one per component:

| file | module | what it holds |
|---|---|---|
| `wrappers.dfy` | `Wrappers` | `Option` |
| `qtjson.dfy` | `QtJson` | JSON values with Qt's conversions and their defaults; 32-bit `int` |
| `vector_index.dfy` | `VectorIndex` | the ANN index reduced to its inserted labels and capacity |
| `agents.dfy` | `Agents` | the agent class: backend tag, server URL, API key, settings |
| `response_stream.dfy` | `ResponseStream` | the streaming buffer of `OllamaAgent::generate` |
| `workspaces.dfy` | `Workspaces` | the `Workspace` class and its JSON form |
| `workspace_manager.dfy` | `Manager` | the `WorkspaceManager` class |
| `helpers.dfy` | `Helpers` | `createAgent`, `getNextWorkspaceId`, `verifyModelStartup`, `loadModel` |

Modelling choices:

- **Index.** The hnswlib index keeps only what the workspace's bookkeeping
  depends on. That is the sequence of inserted labels and the capacity
  (100000). A nearest-neighbour search returns nothing on an empty index.
  Otherwise it returns *some* inserted label, chosen nondeterministically,
  because which label is nearest depends on float distances.
- **Undefined reads.** `getNearestText` indexes `texts` with the label the
  index returned. When that label is not a position of `texts`, C++ reads
  past the end of the vector, which is undefined behaviour. The model
  returns `Nearest.OutOfRange(label)` in that case.
- **Agents.** The source has an abstract agent interface with one subclass
  per backend. Here one class `Agent` carries the backend as a constant
  `kind`, and `GetSettings`/`SetSettings` dispatch on it.
- **Markdown.** `markdownToHtml` is the opaque function parameter `toHtml`.
  The server's chunk stream is the parameter `chunks`.
- **Status map.** `verifyModelStartup` takes the status map by reference.
  The model passes it in as `statusMap` and returns the new map as
  `updated`. This matches updating it in place only if no other call
  touches the map while this one runs. The source can open a modal
  `QMessageBox::critical` before writing the map, in `verifyModelStartup`
  itself or inside `loadModel`. Such a dialog runs a nested event loop
  that could re-enter other slots. The model assumes that no re-entrant
  call happens while those dialogs are open.
- **Server calls.** `ollama::list_running_models` and `ollama::load_model`
  are the outcome parameters `ListOutcome` (the list, or an exception) and
  `LoadOutcome` (loaded, refused, or an exception).
- **Integers.** A workspace id is a C++ `int`, so it is the 32-bit
  `QtJson.Int32`. `QJsonValue::toInt` gives back the number only when it is
  whole and fits in 32 bits; otherwise it gives 0.

Where the code and the design intent differ, this model follows the code:

- `addEmbedding` is not atomic. The embedding and the text are pushed
  before `addPoint`, so when the insert throws (the index is full), both
  sequences have already grown. `AddEmbedding` returns `ok == false` with
  the longer sequences and the old index.
- `loadIndex` replaces the index and keeps `texts`. Labels can then
  point past the end of `texts`. `Workspace.LabelsInRange` is preserved by
  everything except `LoadIndex`, and `StaleIndexLookup` shows a
  lookup going out of range after a load.

## Model

| member | source | states |
|---|---|---|
| `Workspaces.Workspace.constructor` | src/workspace.cpp:4-9 | a new workspace has the given name, id, agent and backend tag, an empty model, empty history, no texts or embeddings, and an empty index of capacity 100000 |
| `Workspaces.Workspace.GetName` | src/workspace.cpp:11-13 | the name returned is the record's name, which `SetName` sets and `toJson` saves |
| `Workspaces.Workspace.GetModel` | src/workspace.cpp:19-21 | the model returned is the record's model, which `SetModel` sets |
| `Workspaces.Workspace.GetId` | src/workspace.cpp:27-29 | the id returned is the record's 32-bit id, fixed at construction |
| `Workspaces.Workspace.GetApiType` | src/workspace.cpp:31-33 | the backend tag returned is the record's tag, which `SetApiType` sets |
| `Workspaces.Workspace.GetChatHistory` | src/workspace.cpp:43-45 | the history returned is the record's message sequence, in order |
| `Workspaces.Workspace.GetAgent` | src/workspace.cpp:83-85 | the agent returned is the one the workspace was constructed with (a constant field, possibly null) |
| `Workspaces.Workspace.SetName` | src/workspace.cpp:15-17 | the getter returns the new name; every other field of the record and the memory are unchanged |
| `Workspaces.Workspace.SetModel` | src/workspace.cpp:23-25 | the getter returns the new model; everything else is unchanged |
| `Workspaces.Workspace.SetApiType` | src/workspace.cpp:35-37 | the getter returns the new backend tag; everything else is unchanged |
| `Workspaces.Workspace.AddChatMessage` | src/workspace.cpp:39-41 | the message is appended at the end, earlier history is unchanged, nothing else changes |
| `Workspaces.Workspace.ToJson` | src/workspace.cpp:47-63 | the loop-built object is the encoding of the workspace record with the agent's current settings |
| `QtJson.StringsToJsonAt` | src/workspace.cpp:54-57 | item k of the chat array is the string value of message k |
| `Workspaces.Workspace.FromJson` | src/workspace.cpp:65-81 | the new workspace's record is the decoding of the object (Qt defaults for missing fields), with an empty memory; the agent's URL (and HuggingFace key) come from "agentSettings" |
| `QtJson.StringsRoundTrip` | src/workspace.cpp:54-76 | reading the chat array back gives exactly the messages written, in order |
| `QtJson.IntRoundTrip` | src/workspace.cpp:51-68 | any 32-bit id written as a JSON number is read back by `toInt` unchanged |
| `Workspaces.RecordRoundTrip` | src/workspace.cpp:47-81 | decoding the encoding reproduces name, model, id, backend tag and chat history, and returns the settings object unchanged |
| `Workspaces.JsonRoundTrip` | src/workspace.cpp:47-81 | `FromJson(ToJson(w), w.agent)` has w's record, and the agent's settings end as they started |
| `VectorIndex.Fresh` | src/workspace.cpp:7 | a new index is empty, with capacity 100000 |
| `VectorIndex.AddPoint` | src/workspace.cpp:90 | an insert succeeds exactly when the label is already present or the index is below capacity; afterwards the label set is the old one plus the label; a failure changes nothing |
| `Workspaces.Workspace.AddEmbedding` | src/workspace.cpp:87-91 | both sequences grow by one and stay equal in length; the label is the old length; the insert succeeds exactly when the index has room; on failure the sequences stay grown (no rollback) and the index is unchanged; label consistency is preserved |
| `Workspaces.LookupLabel` | src/workspace.cpp:96-97 | the lookup gives `texts[label]` exactly when the label is below the number of texts, and is out of range otherwise |
| `Workspaces.Workspace.GetNearestText` | src/workspace.cpp:93-100 | "" for an empty index; otherwise the lookup of some inserted label; when every label is in range, the result is one of the stored texts |
| `Workspaces.Workspace.SaveIndex` | src/workspace.cpp:102-104 | the saved file holds the current index |
| `Workspaces.Workspace.LoadIndex` | src/workspace.cpp:106-110 | the index becomes the file's, or a fresh empty one when the file cannot be read; texts, embeddings and record are untouched |
| `Workspaces.StaleIndexLookup` | src/workspace.cpp:93-110 | after loading an index with label 0 into a workspace with no texts, the nearest-text lookup is out of range |
| `Workspaces.Workspace.GetEmbedding` | src/workspace.cpp:112-117 | the embedding has 128 entries, all zero, whatever the text |
| `Manager.WorkspaceManager.constructor` | src/workspace_manager.cpp:4-5 | an empty table with counter 1 and no ids issued |
| `Manager.WorkspaceManager.AddWorkspace` | src/workspace_manager.cpp:13-16 | the new workspace takes the old counter value as its id; that id was never issued and is not a key; only that key is added; the counter grows by exactly 1; keys stay below the counter |
| `Manager.WorkspaceManager.RemoveWorkspace` | src/workspace_manager.cpp:18-20 | only key `id` is removed (nothing changes when it is absent); counter and issued ids are unchanged, so `id` is never reissued |
| `Manager.WorkspaceManager.GetWorkspace` | src/workspace_manager.cpp:22-24 | a present id gives the stored workspace, whose own id is that id; an absent id gives null |
| `Manager.WorkspaceManager.GetWorkspaces` | src/workspace_manager.cpp:26-28 | the whole table; every key is below the counter and names a workspace with that id |
| `Helpers.AgentKindFor` | src/mainwindow_helpers.cpp:19-26 | "Ollama" selects Ollama, "HuggingFace" selects HuggingFace, every other tag selects nothing (each in both directions) |
| `Helpers.CreateAgent` | src/mainwindow_helpers.cpp:19-26 | a fresh default agent of the selected backend whose type name equals the tag, or null for an unknown tag |
| `Agents.AgentType` | headers/ollama_agent.h:21 | the type name is "Ollama" exactly for Ollama agents and "HuggingFace" exactly for HuggingFace agents |
| `Helpers.AgentTypeSelectsKind` | headers/huggingface_agent.h:19 | the type name an agent reports is the tag that `createAgent` maps back to its backend |
| `Helpers.NextIdSpec` | src/mainwindow_helpers.cpp:186-194 | the next id is at least 1, above every key, and either 1 or one more than a key |
| `Helpers.GetNextWorkspaceId` | src/mainwindow_helpers.cpp:186-194 | the loop's result equals the specification, whatever order the keys are visited in |
| `Helpers.NextIdOfEmpty` | src/mainwindow_helpers.cpp:187-193 | an empty table gives 1 |
| `Helpers.NextIdIsMaxPlusOne` | src/mainwindow_helpers.cpp:188-193 | when the largest key is positive, the result is exactly that key plus one |
| `Helpers.LoadModel` | src/mainwindow_helpers.cpp:160-184 | true exactly when the server reports the model loaded; a refusal or any exception gives false |
| `Helpers.ProbeModel` | src/mainwindow_helpers.cpp:122-157 | an uncached model is available exactly when the running list was obtained and it contains the model or the load succeeds |
| `Helpers.VerifyModelStartup` | src/mainwindow_helpers.cpp:114-158 | a cached status is returned with the map unchanged; otherwise the probe result is returned; afterwards the map holds the key with the returned value and every other key is unchanged |
| `Helpers.StatusIsMemoised` | src/mainwindow_helpers.cpp:118-120 | two calls for the same model return the same status, whatever the server says the second time |
| `Agents.Agent.constructor` | headers/ollama_agent.h:11 | a default-constructed agent has an empty server URL and key |
| `Agents.Agent.SetServerURL` | src/ollama_agent.cpp:10-13 | the URL is overwritten and nothing else |
| `Agents.Agent.GetSettings` | src/ollama_agent.cpp:44-48 | the settings hold exactly "serverURL" (plus "apiKey" for HuggingFace), with the current values |
| `Agents.Agent.SetSettings` | src/ollama_agent.cpp:50-53 | the URL (and the HuggingFace key) are read back with Qt's string default; given `GetSettings()`, the agent is left as it was |
| `ResponseStream.Generate` | src/ollama_agent.cpp:27-42 | the callback receives, in order, the HTML of each text flushed by the chunk fold |
| `ResponseStream.RunPreservesText` | src/ollama_agent.cpp:29-39 | the flushed texts followed by the buffer are exactly all chunks joined in arrival order |
| `ResponseStream.FlushCount` | src/ollama_agent.cpp:34 | the callback fires once per chunk ending in '.', and never otherwise |
| `ResponseStream.NextChunk` | src/ollama_agent.cpp:34-39 | a chunk ending in '.' delivers everything buffered since the last flush plus itself and empties the buffer; any other chunk only extends the buffer |
| `ResponseStream.TailStaysBuffered` | src/ollama_agent.cpp:34-40 | chunks after the last '.'-terminated one are never delivered: they only extend the buffer |

## Left out

- Qt widgets, dialogs, message boxes and logging (`qDebug`, `qCritical`, `QMessageBox`) are not modelled. The logging and message boxes inside the helpers' exception handlers are dropped. The handlers' other effects are modelled by `ListThrew` and `LoadThrew`: in `verifyModelStartup` they cache `false` and return `false`, and in `loadModel` they return `false`.
- `loadWorkspaces`, `saveWorkspaces` and `updateChatWithMarkdown` are not modelled. They do file-system I/O and GUI updates.
- The `Ollama` client instance is not modelled. This covers its `setServerURL`, `list_models`, `list_running_models`, `load_model` and the network behind `generate`. Their results enter only as parameters.
- The HuggingFace and DeepSeek placeholder backends are not modelled, apart from the HuggingFace agent's settings and type name. Those are needed because `fromJson` calls `setSettings` on whichever agent it is given.
- hnswlib internals are not modelled. That means vectors, L2 distances, the graph and the binary file format. So no property says which text is nearest. The file is its decoded index value, and an unreadable file is `None`.
- `Workspaces.Workspace.LoadIndex` returns `ok == false` for an unreadable file. `Workspace::loadIndex` has no `try`, so in the source hnswlib's exception escapes to the caller, after the fresh empty index has been installed. The model turns that exception into a result and keeps the same final state.
- `WorkspaceManager`'s destructor and `removeWorkspace`'s `delete` (memory release) are not modelled. The same goes for the lifetime of the `space` object that the index constructor is given.
- JSON numbers are reals. Double rounding is not modelled, and neither are JSON documents beyond the objects used here.
- `QString` to `std::string` conversions are the identity. Both sides are modelled as `string`, with no encoding.
- `Helpers.GetNextWorkspaceId` works on unbounded integers. In the source, `maxId + 1` overflows a C++ `int` when the table holds the key 2147483647. The model does not reproduce that undefined behaviour.
- `Manager.WorkspaceManager.AddWorkspace` requires the counter to be below 2147483647. The source's `nextWorkspaceId++` would overflow a C++ `int` there, which is undefined behaviour.
- `Workspaces.Workspace.AddEmbedding` requires 128-entry embeddings, and `Workspaces.Workspace.GetNearestText` requires a 128-entry query. hnswlib reads 128 floats from the vector's data without checking its length.
- `Workspaces.Workspace.ToJson` requires a non-null agent. The source accepts a null agent, because the constructor, `addWorkspace` and `createAgent` all allow one, but `toJson` then dereferences it without a check. The model does not cover that null dereference.
- `Workspaces.Workspace.FromJson` requires a non-null agent for the same reason. `fromJson` calls `setSettings` on the agent without a null check.
- `ResponseStream.Generate` requires every chunk to be non-empty. The source reads `response.back()`, which is undefined on an empty string.
- `Helpers.GetNextWorkspaceId` visits the keys in an arbitrary order, while `QMap` iterates in ascending order. The result does not depend on the order.
