/** The agents of workspaces, and the counter of runs queued for each. */
module Agents {

  /** Workspaces and agents are only ever compared. */
  type Workspace = nat
  type AgentId = nat

  datatype AgentKey = AgentKey(workspace: Workspace, agent: AgentId)

  function PendingOf(pending: map<AgentKey, nat>, key: AgentKey): nat {
    if key in pending then pending[key] else 0
  }
}
