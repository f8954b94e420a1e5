/**
 * api/handlers/handlers.go, the parts that compute rather than talk to the
 * outside: the ports an agent's node is given, the port a request was sent
 * to, and the checks RegisterAgent and CreateChain make against the
 * registries. The CRC-32 checksum of the agent ID is a parameter; the HTTP
 * binding, the genesis key file and the spawned node process are not modelled.
 */
module Handlers {
  import opened Wrappers
  import opened Text
  import opened Core
  import AgentRegistry
  import ChainRegistry

  /** crc32.ChecksumIEEE's result: a 32-bit unsigned value, held in a 64-bit int. */
  newtype Checksum = c: int | 0 <= c < 0x1_0000_0000

  const BasePort := 26656

  datatype Ports = Ports(p2p: int, rpc: int, api: int)

  /** The ports RegisterAgent derives from the agent ID's checksum. */
  function AgentPorts(checksum: Checksum): (ports: Ports)
    ensures BasePort <= ports.p2p <= BasePort + 9999
    ensures ports.rpc == ports.p2p + 1 && ports.api == ports.p2p + 2
  {
    var p2p := BasePort + (checksum as int) % 10000;
    Ports(p2p, p2p + 1, p2p + 2)
  }

  /** The rejection RegisterAgent makes for ports the genesis node uses. */
  predicate ConflictsWithGenesis(ports: Ports) {
    ports.p2p == 26656 || ports.rpc == 26657
  }

  /** The genesis-port conflict fires exactly for checksums divisible by 10000. */
  lemma ConflictExactly(checksum: Checksum)
    ensures ConflictsWithGenesis(AgentPorts(checksum)) <==> (checksum as int) % 10000 == 0
  {
  }

  /** The text after the last ':' of the request's Host, or "" when there is none. */
  function ApiPortOfHost(host: string): (port: string)
    ensures ':' !in port
    ensures ':' !in host ==> port == ""
  {
    var i := LastIndexOf(host, ':');
    if i == -1 then ""
    else
      var port := host[i + 1..];
      assert forall k :: 0 <= k < |port| ==> port[k] == host[i + 1 + k];
      port
  }

  /** Decimal digits hold no ':'. */
  lemma DigitsHaveNoColon(n: nat)
    ensures ':' !in IntToString(n)
  {
    var s := IntToString(n);
    assert AllDigits(s);
  }

  /** A Host of the form "<name>:<port>" yields the port's decimal text, whatever the name holds. */
  lemma ApiPortOfHostWithPort(name: string, port: nat)
    ensures ApiPortOfHost(name + ":" + IntToString(port)) == IntToString(port)
  {
    var digits := IntToString(port);
    var host := name + ":" + digits;
    DigitsHaveNoColon(port);
    assert host[|name|] == ':';
    assert forall k :: |name| < k < |host| ==> host[k] == digits[k - |name| - 1];
    var i := LastIndexOf(host, ':');
    assert i == |name|;
    assert host[i + 1..] == digits;
  }

  /**
   * RegisterAgent's handling once the agent has been decoded: the agent is
   * registered first; then a port conflict with the genesis node answers 500
   * and registers no node. `launched` stands for the genesis key being read
   * and the node process being started; when either fails the answer is 500
   * too. Otherwise the node is registered under the agent's ID and 200 is
   * answered.
   */
  method RegisterAgent(agents: AgentRegistry.Registry, nodes: ChainRegistry.Registry, chainID: string,
                       agent: Agent, checksum: Checksum, launched: bool) returns (status: int, ports: Ports)
    modifies agents, nodes
    ensures ports == AgentPorts(checksum)
    ensures agents.agents == AgentRegistry.WithAgent(old(agents.agents), chainID, agent)
    ensures agents.validatorMap == old(agents.validatorMap)
    ensures status == 200 <==> !ConflictsWithGenesis(ports) && launched
    ensures status != 200 ==> status == 500 && nodes.chainNodes == old(nodes.chainNodes)
    ensures status == 200 ==>
              nodes.chainNodes == ChainRegistry.WithNode(old(nodes.chainNodes), chainID, agent.id,
                                                         ChainRegistry.NodeInfo(false, agent.id, ports.rpc, ports.p2p, ports.api))
  {
    agents.RegisterAgent(chainID, agent);
    ports := AgentPorts(checksum);
    if ports.p2p == 26656 || ports.rpc == 26657 {
      return 500, ports;
    }
    if !launched {
      return 500, ports;
    }
    nodes.RegisterNode(chainID, agent.id, ChainRegistry.NodeInfo(false, agent.id, ports.rpc, ports.p2p, ports.api));
    status := 200;
  }

  /** CreateChain's duplicate check: 409 Conflict when the chain already has a genesis node, else it proceeds. */
  method CreateChainConflict(nodes: ChainRegistry.Registry, chainID: string) returns (conflict: bool)
    ensures conflict <==> ChainRegistry.HasGenesis(nodes.chainNodes, chainID)
  {
    var r := nodes.GetRPCPortForChain(chainID);
    conflict := r.Success?;
  }

  /**
   * A node registered by RegisterAgent makes its chain serve a request sent to
   * "<host>:<its API port>"; when no other node of the chain had that API
   * port, it is the only node serving it, so it is the one GetNodeByAPIPort
   * finds for SubmitTransaction and GetValidators.
   */
  lemma RegisteredAgentReachable(table: ChainRegistry.NodeTable, chainID: string, id: string, checksum: Checksum, host: string)
    ensures var ports := AgentPorts(checksum);
            var after := ChainRegistry.WithNode(table, chainID, id, ChainRegistry.NodeInfo(false, id, ports.rpc, ports.p2p, ports.api));
            ChainRegistry.ServesApiPort(after, chainID, ApiPortOfHost(host + ":" + IntToString(ports.api)))
    ensures var ports := AgentPorts(checksum);
            var info := ChainRegistry.NodeInfo(false, id, ports.rpc, ports.p2p, ports.api);
            var after := ChainRegistry.WithNode(table, chainID, id, info);
            (forall n :: chainID in table && n in table[chainID] && n != id ==> table[chainID][n].apiPort != ports.api) ==>
              forall n :: n in after[chainID] && IntToString(after[chainID][n].apiPort) == ApiPortOfHost(host + ":" + IntToString(ports.api))
                ==> n == id && after[chainID][n] == info
  {
    var ports := AgentPorts(checksum);
    var info := ChainRegistry.NodeInfo(false, id, ports.rpc, ports.p2p, ports.api);
    var after: ChainRegistry.NodeTable := ChainRegistry.WithNode(table, chainID, id, info);
    ApiPortOfHostWithPort(host, ports.api);
    ChainRegistry.RegisteredNodeServesItsPort(table, chainID, id, info);
    if forall n :: chainID in table && n in table[chainID] && n != id ==> table[chainID][n].apiPort != ports.api {
      forall n | n in after[chainID] && IntToString(after[chainID][n].apiPort) == IntToString(ports.api)
        ensures n == id
      {
        IntToStringInjective(after[chainID][n].apiPort, ports.api);
      }
    }
  }

  /**
   * The API port is not unique: checksums 10000 apart give the same ports, so
   * a second agent's node can answer for the first one's port.
   */
  lemma SharedApiPort(checksum: Checksum)
    requires (checksum as int) + 10000 < 0x1_0000_0000
    ensures AgentPorts(checksum) == AgentPorts((checksum as int + 10000) as Checksum)
  {
  }
}
