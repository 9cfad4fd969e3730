/** Helpers used by the main window: choosing an agent from a backend tag,
    computing the next free workspace id from a table, and checking (once
    per model) that a model is running on the Ollama server. */
module Helpers {
  import opened Wrappers
  import opened Agents

  // ---------------------------------------------------------------------
  // createAgent

  /** The backend a tag selects, if any. */
  function AgentKindFor(apiType: string): (k: Option<AgentKind>)
    ensures k == Some(Ollama) <==> apiType == "Ollama"
    ensures k == Some(HuggingFace) <==> apiType == "HuggingFace"
    ensures k == None <==> apiType != "Ollama" && apiType != "HuggingFace"
  {
    if apiType == "Ollama" then Some(Ollama)
    else if apiType == "HuggingFace" then Some(HuggingFace)
    else None
  }

  /** The type name an agent reports is the tag that creates it. */
  lemma AgentTypeSelectsKind(kind: AgentKind)
    ensures AgentKindFor(AgentType(kind)) == Some(kind)
  {
  }

  /** `createAgent`: a new default agent of the tagged backend, or null for
      an unknown tag. */
  method CreateAgent(apiType: string) returns (a: Agent?)
    ensures a == null <==> AgentKindFor(apiType) == None
    ensures a != null ==> fresh(a) && Some(a.kind) == AgentKindFor(apiType)
    ensures a != null ==> AgentType(a.kind) == apiType && a.serverURL == "" && a.apiKey == ""
  {
    if apiType == "Ollama" {
      a := new Agent(Ollama);
    } else if apiType == "HuggingFace" {
      a := new Agent(HuggingFace);
    } else {
      a := null;
    }
  }

  // ---------------------------------------------------------------------
  // getNextWorkspaceId

  /** One more than the largest key, counting from a floor of 0: at least 1,
      above every key, and either 1 or one more than a key. */
  ghost function NextIdSpec(keys: set<int>): (r: int)
    ensures r >= 1
    ensures forall k :: k in keys ==> k < r
    ensures r == 1 || r - 1 in keys
    decreases keys
  {
    if keys == {} then 1
    else
      NonEmptyHasElement(keys);
      var k :| k in keys;
      var rest := NextIdSpec(keys - {k});
      assert forall x :: x in keys ==> x == k || x in keys - {k};
      if k + 1 > rest then k + 1 else rest
  }

  lemma NonEmptyHasElement(s: set<int>)
    requires s != {}
    ensures exists x :: x in s
  {
    if forall x :: x !in s {
      assert false;
    }
  }

  /** With no workspaces the first id is 1. */
  lemma NextIdOfEmpty()
    ensures NextIdSpec({}) == 1
  {
  }

  /** When the largest key is positive, the next id is exactly that key plus one. */
  lemma NextIdIsMaxPlusOne(keys: set<int>, top: int)
    requires top in keys && top > 0
    requires forall k :: k in keys ==> k <= top
    ensures NextIdSpec(keys) == top + 1
  {
  }

  /** `getNextWorkspaceId`: scans the keys keeping the largest seen (starting
      from 0) and returns it plus one. */
  method GetNextWorkspaceId<W>(workspaceMap: map<int, W>) returns (r: int)
    ensures r == NextIdSpec(workspaceMap.Keys)
  {
    var maxId := 0;
    var rest := workspaceMap.Keys;
    ghost var seen: set<int> := {};
    while rest != {}
      invariant rest + seen == workspaceMap.Keys && rest !! seen
      invariant maxId >= 0
      invariant forall k :: k in seen ==> k <= maxId
      invariant maxId == 0 || maxId in seen
      decreases rest
    {
      NonEmptyHasElement(rest);
      var k :| k in rest;
      if k > maxId {
        maxId := k;
      }
      rest := rest - {k};
      seen := seen + {k};
    }
    r := maxId + 1;
  }

  // ---------------------------------------------------------------------
  // verifyModelStartup and loadModel

  /** What listing the running models on the server gave: the list, or an exception. */
  datatype ListOutcome = Running(models: seq<string>) | ListThrew

  /** What asking the server to load the model gave. */
  datatype LoadOutcome = Loaded | NotLoaded | LoadThrew

  /** `loadModel`: true only when the server reports the model loaded; a
      refusal or any exception gives false. */
  function LoadModel(outcome: LoadOutcome): (ok: bool)
    ensures ok <==> outcome == Loaded
  {
    match outcome
    case Loaded => true
    case NotLoaded => false
    case LoadThrew => false
  }

  /** The status found for a model that is not cached yet: running already,
      or loaded on request; false when either server call fails. The load is
      only attempted when the model is not in the running list. */
  function ProbeModel(key: string, listing: ListOutcome, load: LoadOutcome): (ok: bool)
    ensures ok <==> listing.Running? && (key in listing.models || load == Loaded)
  {
    match listing
    case ListThrew => false
    case Running(models) => key in models || LoadModel(load)
  }

  /** `verifyModelStartup`: the status map is a by-reference parameter, given
      here as `statusMap` and returned as `updated`. A cached status is
      returned as is; otherwise the server is probed and the result cached. */
  method VerifyModelStartup(modelName: string, statusMap: map<string, bool>,
                            listing: ListOutcome, load: LoadOutcome)
    returns (ok: bool, updated: map<string, bool>)
    ensures modelName in statusMap ==> ok == statusMap[modelName] && updated == statusMap
    ensures modelName !in statusMap ==> ok == ProbeModel(modelName, listing, load)
    ensures updated == statusMap[modelName := ok]
  {
    var modelKey := modelName;
    if modelKey in statusMap {
      return statusMap[modelKey], statusMap;
    }
    if listing.ListThrew? {
      return false, statusMap[modelKey := false];
    }
    var runningModels := listing.models;
    var i := 0;
    while i < |runningModels|
      invariant 0 <= i <= |runningModels|
      invariant forall j :: 0 <= j < i ==> runningModels[j] != modelKey
    {
      if runningModels[i] == modelKey {
        return true, statusMap[modelKey := true];
      }
      i := i + 1;
    }
    if LoadModel(load) {
      return true, statusMap[modelKey := true];
    }
    return false, statusMap[modelKey := false];
  }

  /** Once a model's status is cached, asking again gives the same answer
      and leaves the map alone, whatever the server would say the second time. */
  method StatusIsMemoised(modelName: string, statusMap: map<string, bool>,
                          listing1: ListOutcome, load1: LoadOutcome,
                          listing2: ListOutcome, load2: LoadOutcome)
    returns (first: bool, second: bool, after: map<string, bool>)
    ensures first == second
    ensures after == statusMap[modelName := first]
  {
    var between;
    first, between := VerifyModelStartup(modelName, statusMap, listing1, load1);
    second, after := VerifyModelStartup(modelName, between, listing2, load2);
  }
}
