/**
 * registry/agent_registry.go: the process-wide registry of agents, per chain,
 * and of the validator address each agent was linked to. Loading and saving
 * the JSON file behind it are not modelled; the registry starts empty, as when
 * that file does not exist. Lookups that the source writes as map probes are
 * functions of the two tables; the operations that iterate a Go map are
 * methods whose visiting order is left unspecified.
 */
module AgentRegistry {
  import opened Wrappers
  import opened Core

  /** Agents[chain][agentID]. */
  type AgentTable = map<string, map<string, Agent>>
  /** ValidatorMap[chain][validatorAddress] = agentID. */
  type ValidatorTable = map<string, map<string, string>>

  /** The inner map of a chain; a chain never seen reads as an empty map, as a nil Go map does. */
  function Inner<V>(m: map<string, map<string, V>>, chainID: string): map<string, V> {
    if chainID in m then m[chainID] else map[]
  }

  /** The agent stored under (chain, id), if any. */
  function Find(agents: AgentTable, chainID: string, id: string): Option<Agent> {
    if chainID in agents && id in agents[chainID] then Some(agents[chainID][id]) else None
  }

  /** The agent ID an address of a chain is bound to, if any. */
  function Binding(validators: ValidatorTable, chainID: string, addr: string): Option<string> {
    if chainID in validators && addr in validators[chainID] then Some(validators[chainID][addr]) else None
  }

  /** RegisterAgent's effect: the chain's map (created if needed) stores the agent under its ID. */
  function WithAgent(agents: AgentTable, chainID: string, agent: Agent): AgentTable {
    agents[chainID := Inner(agents, chainID)[agent.id := agent]]
  }

  /** LinkAgentToValidator's effect on ValidatorMap: the address is bound to the ID, whether or not such an agent exists. */
  function WithBinding(validators: ValidatorTable, chainID: string, addr: string, id: string): ValidatorTable {
    validators[chainID := Inner(validators, chainID)[addr := id]]
  }

  /** LinkAgentToValidator's effect on Agents: a stored agent is marked as the validator at `addr`. */
  function MarkedValidator(agents: AgentTable, chainID: string, id: string, addr: string): AgentTable {
    if chainID in agents && id in agents[chainID] then
      agents[chainID := agents[chainID][id := agents[chainID][id].(isValidator := true, validatorAddress := addr)]]
    else agents
  }

  /** GetAgentByValidator: the agent the address is bound to, or the zero agent and false. */
  function GetAgentByValidator(agents: AgentTable, validators: ValidatorTable, chainID: string, addr: string): (r: (Agent, bool))
    ensures r.1 <==> Binding(validators, chainID, addr).Some? && Find(agents, chainID, Binding(validators, chainID, addr).value).Some?
    ensures r.1 ==> r.0 == Find(agents, chainID, Binding(validators, chainID, addr).value).value
    ensures !r.1 ==> r.0 == ZeroAgent
  {
    if chainID in validators && addr in validators[chainID] then
      var id := validators[chainID][addr];
      if chainID in agents && id in agents[chainID] then (agents[chainID][id], true) else (ZeroAgent, false)
    else (ZeroAgent, false)
  }

  /** Every agent of every chain is stored under its own ID. */
  predicate KeyedById(agents: AgentTable) {
    forall c, id :: c in agents && id in agents[c] ==> agents[c][id].id == id
  }

  class Registry {
    var agents: AgentTable
    var validatorMap: ValidatorTable

    /** The registry loadRegistry builds when there is no file to load. */
    constructor ()
      ensures agents == map[] && validatorMap == map[]
    {
      agents := map[];
      validatorMap := map[];
    }

    method RegisterAgent(chainID: string, agent: Agent)
      modifies this
      ensures agents == WithAgent(old(agents), chainID, agent)
      ensures validatorMap == old(validatorMap)
    {
      if chainID !in agents {
        agents := agents[chainID := map[]];
      }
      agents := agents[chainID := agents[chainID][agent.id := agent]];
    }

    /** LinkAgentToValidator: always reports success. */
    method LinkAgentToValidator(chainID: string, agentID: string, validatorAddr: string) returns (ok: bool)
      modifies this
      ensures ok
      ensures validatorMap == WithBinding(old(validatorMap), chainID, validatorAddr, agentID)
      ensures agents == MarkedValidator(old(agents), chainID, agentID, validatorAddr)
    {
      if chainID !in validatorMap {
        validatorMap := validatorMap[chainID := map[]];
      }
      validatorMap := validatorMap[chainID := validatorMap[chainID][validatorAddr := agentID]];
      if chainID in agents {
        var chainAgents := agents[chainID];
        if agentID in chainAgents {
          var agent := chainAgents[agentID];
          agent := agent.(isValidator := true, validatorAddress := validatorAddr);
          agents := agents[chainID := chainAgents[agentID := agent]];
        }
      }
      ok := true;
    }

    /**
     * GetAllAgents: every agent of the chain once, in the map's visiting
     * order; an unknown chain gives the empty list.
     */
    method GetAllAgents(chainID: string) returns (list: seq<Agent>)
      ensures |list| == |Inner(agents, chainID)|
      ensures forall a :: a in list <==> a in Inner(agents, chainID).Values
      ensures KeyedById(agents) ==> forall i, j :: 0 <= i < j < |list| ==> list[i] != list[j]
    {
      list := [];
      var chainAgents := Inner(agents, chainID);
      var remaining := chainAgents.Keys;
      ghost var visited: seq<string> := [];
      while remaining != {}
        invariant remaining <= chainAgents.Keys
        invariant |visited| == |list| && (forall k :: 0 <= k < |list| ==> visited[k] in chainAgents && list[k] == chainAgents[visited[k]])
        invariant forall k :: 0 <= k < |visited| ==> visited[k] !in remaining
        invariant forall i, j :: 0 <= i < j < |visited| ==> visited[i] != visited[j]
        invariant forall id :: id in chainAgents && id !in remaining ==> id in visited
        invariant |list| + |remaining| == |chainAgents|
        decreases |remaining|
      {
        var id :| id in remaining;
        list := list + [chainAgents[id]];
        visited := visited + [id];
        remaining := remaining - {id};
      }
      forall a | a in chainAgents.Values ensures a in list {
        var id :| id in chainAgents && chainAgents[id] == a;
        var k :| 0 <= k < |visited| && visited[k] == id;
        assert list[k] == a;
      }
    }

    /**
     * GetAllValidatorAgentMappings: despite its name it iterates over Agents,
     * so each agent's map key is paired with that agent's ID.
     */
    method GetAllValidatorAgentMappings(chainID: string) returns (result: map<string, string>)
      ensures result == map id | id in Inner(agents, chainID) :: Inner(agents, chainID)[id].id
    {
      result := map[];
      var chainAgents := Inner(agents, chainID);
      var remaining := chainAgents.Keys;
      while remaining != {}
        invariant remaining <= chainAgents.Keys
        invariant result == map id | id in chainAgents.Keys - remaining :: chainAgents[id].id
        decreases |remaining|
      {
        var id :| id in remaining;
        result := result[id := chainAgents[id].id];
        remaining := remaining - {id};
      }
    }
  }

  // ---------------------------------------------------------- properties

  /** RegisterAgent stores the agent under its ID, replacing any previous entry, and changes no other entry. */
  lemma RegisterAgentStores(agents: AgentTable, chainID: string, agent: Agent, c: string, id: string)
    ensures Find(WithAgent(agents, chainID, agent), c, id)
         == if c == chainID && id == agent.id then Some(agent) else Find(agents, c, id)
  {
  }

  /** Linking binds exactly the one address and leaves every other binding as it was. */
  lemma LinkBinds(validators: ValidatorTable, chainID: string, addr: string, id: string, c: string, a: string)
    ensures Binding(WithBinding(validators, chainID, addr, id), c, a)
         == if c == chainID && a == addr then Some(id) else Binding(validators, c, a)
  {
  }

  /** Linking marks the named agent, if it exists, and no other; an unknown agent leaves Agents unchanged. */
  lemma LinkMarks(agents: AgentTable, chainID: string, id: string, addr: string, c: string, other: string)
    ensures Find(agents, chainID, id).None? ==> MarkedValidator(agents, chainID, id, addr) == agents
    ensures Find(MarkedValidator(agents, chainID, id, addr), c, other)
         == if c == chainID && other == id && Find(agents, c, other).Some?
            then Some(Find(agents, c, other).value.(isValidator := true, validatorAddress := addr))
            else Find(agents, c, other)
  {
  }

  /** Register, then link, then look up by address: the agent comes back with its validator fields set. */
  lemma RegisterLinkGet(agents: AgentTable, validators: ValidatorTable, chainID: string, agent: Agent, addr: string)
    ensures var registered := WithAgent(agents, chainID, agent);
            GetAgentByValidator(MarkedValidator(registered, chainID, agent.id, addr),
                                WithBinding(validators, chainID, addr, agent.id), chainID, addr)
            == (agent.(isValidator := true, validatorAddress := addr), true)
  {
    var registered := WithAgent(agents, chainID, agent);
    RegisterAgentStores(agents, chainID, agent, chainID, agent.id);
    LinkMarks(registered, chainID, agent.id, addr, chainID, agent.id);
    LinkBinds(validators, chainID, addr, agent.id, chainID, addr);
  }

  /** An address bound to an ID no agent has is not found, although the binding is recorded. */
  lemma LinkUnknownAgentNotFound(agents: AgentTable, validators: ValidatorTable, chainID: string, id: string, addr: string)
    requires Find(agents, chainID, id).None?
    ensures Binding(WithBinding(validators, chainID, addr, id), chainID, addr) == Some(id)
    ensures GetAgentByValidator(MarkedValidator(agents, chainID, id, addr),
                                WithBinding(validators, chainID, addr, id), chainID, addr) == (ZeroAgent, false)
  {
    LinkMarks(agents, chainID, id, addr, chainID, id);
  }

  /** Registering and linking keep every agent under its own ID. */
  lemma KeyedByIdPreserved(agents: AgentTable, chainID: string, agent: Agent, id: string, addr: string)
    requires KeyedById(agents)
    ensures KeyedById(WithAgent(agents, chainID, agent))
    ensures KeyedById(MarkedValidator(agents, chainID, id, addr))
  {
    var registered: AgentTable := WithAgent(agents, chainID, agent);
    forall c: string, k: string | c in registered && k in registered[c]
      ensures registered[c][k].id == k
    {
      if c != chainID {
        assert registered[c] == agents[c];
      } else if k != agent.id {
        assert k in Inner(agents, chainID);
      }
    }
  }

  /**
   * While every agent is stored under its own ID, the mapping
   * GetAllValidatorAgentMappings reports sends each agent ID to itself; no
   * validator address appears in it.
   */
  lemma MappingsAreIdentity(agents: AgentTable, chainID: string)
    requires KeyedById(agents)
    ensures var m := map id | id in Inner(agents, chainID) :: Inner(agents, chainID)[id].id;
            m.Keys == Inner(agents, chainID).Keys && forall id :: id in m ==> m[id] == id
  {
  }
}
