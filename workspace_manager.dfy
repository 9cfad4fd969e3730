/** The table of open workspaces, keyed by id, with a counter that hands out
    ids 1, 2, 3, ... and never goes back, so an id that was removed is never
    issued again. */
module Manager {
  import opened QtJson
  import opened Agents
  import opened Workspaces

  class WorkspaceManager {
    var workspaceMap: map<int, Workspace>
    var nextWorkspaceId: int
    /** Every id handed out so far, including those since removed. */
    ghost var issued: set<int>

    ghost predicate Valid()
      reads this
    {
      && 1 <= nextWorkspaceId <= Int32Max
      && (forall i :: i in issued <==> 1 <= i < nextWorkspaceId)
      && workspaceMap.Keys <= issued
      && (forall k :: k in workspaceMap ==> workspaceMap[k].id == k)
    }

    constructor ()
      ensures Valid()
      ensures workspaceMap == map[] && nextWorkspaceId == 1 && issued == {}
    {
      workspaceMap := map[];
      nextWorkspaceId := 1;
      issued := {};
    }

    /** `addWorkspace`: a new workspace takes the current counter value as
        its id and is stored under it; the counter moves on by one. The id
        was never issued before, so no entry is overwritten. The counter is a
        C++ int, so the source cannot go past its maximum. */
    method AddWorkspace(name: string, agent: Agent?, apiType: string)
      requires Valid() && nextWorkspaceId < Int32Max
      modifies this
      ensures Valid()
      ensures old(nextWorkspaceId) !in old(issued) && old(nextWorkspaceId) !in old(workspaceMap)
      ensures nextWorkspaceId == old(nextWorkspaceId) + 1
      ensures issued == old(issued) + {old(nextWorkspaceId)}
      ensures old(nextWorkspaceId) in workspaceMap
      ensures workspaceMap == old(workspaceMap)[old(nextWorkspaceId) := workspaceMap[old(nextWorkspaceId)]]
      ensures fresh(workspaceMap[old(nextWorkspaceId)])
      ensures workspaceMap[old(nextWorkspaceId)].IsNew(name, old(nextWorkspaceId), agent, apiType)
    {
      var id := nextWorkspaceId;
      nextWorkspaceId := nextWorkspaceId + 1;
      issued := issued + {id};
      var w := new Workspace(name, id, agent, apiType);
      workspaceMap := workspaceMap[id := w];
    }

    /** `removeWorkspace`: only the entry for `id` goes, if there is one; the
        counter and the set of issued ids stay, so `id` is never reissued. */
    method RemoveWorkspace(id: int)
      requires Valid()
      modifies this
      ensures Valid()
      ensures workspaceMap == old(workspaceMap) - {id}
      ensures id !in old(workspaceMap) ==> workspaceMap == old(workspaceMap)
      ensures nextWorkspaceId == old(nextWorkspaceId) && issued == old(issued)
    {
      workspaceMap := workspaceMap - {id};
    }

    /** `getWorkspace`: the workspace stored under `id`, whose own id is `id`,
        or null when there is none. */
    method GetWorkspace(id: int) returns (w: Workspace?)
      requires Valid()
      ensures w != null <==> id in workspaceMap
      ensures w != null ==> w == workspaceMap[id] && w.id == id
    {
      w := if id in workspaceMap then workspaceMap[id] else null;
    }

    /** `getWorkspaces`: the whole table; every key is an id already issued
        and below the counter, and names a workspace with that id. */
    method GetWorkspaces() returns (m: map<int, Workspace>)
      requires Valid()
      ensures m == workspaceMap
      ensures forall k :: k in m ==> 1 <= k < nextWorkspaceId && m[k].id == k
    {
      m := workspaceMap;
    }
  }
}
