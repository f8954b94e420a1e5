/**
 * registry/chain_registry.go: the process-wide table of the nodes each chain
 * runs, keyed by chain ID and node ID. Lookups by key are functions of the
 * table; the scans over a Go map return whichever qualifying node the map
 * happens to visit first, so their contracts say only which nodes qualify.
 */
module ChainRegistry {
  import opened Wrappers
  import opened Text

  datatype NodeInfo = NodeInfo(isGenesis: bool, name: string, rpcPort: int, p2pPort: int, apiPort: int)

  /** NodeInfo{}. */
  const ZeroNodeInfo := NodeInfo(false, "", 0, 0, 0)

  type NodeTable = map<string, map<string, NodeInfo>>

  /** The chain has a node registered as its genesis node. */
  predicate HasGenesis(table: NodeTable, chainID: string) {
    chainID in table && exists n :: n in table[chainID] && table[chainID][n].isGenesis
  }

  /** Some node of the chain listens for the API on the port whose decimal text is `apiPort`. */
  predicate ServesApiPort(table: NodeTable, chainID: string, apiPort: string) {
    chainID in table && exists n :: n in table[chainID] && IntToString(table[chainID][n].apiPort) == apiPort
  }

  /** RegisterNode's effect: the chain's map (created if needed) stores the node's info. */
  function WithNode(table: NodeTable, chainID: string, nodeID: string, info: NodeInfo): NodeTable {
    table[chainID := (if chainID in table then table[chainID] else map[])[nodeID := info]]
  }

  /** GetNodeInfo: the stored info and true, or NodeInfo{} and false. */
  function GetNodeInfo(table: NodeTable, chainID: string, nodeID: string): (r: (NodeInfo, bool))
    ensures r.1 <==> chainID in table && nodeID in table[chainID]
    ensures r.1 ==> r.0 == table[chainID][nodeID]
    ensures !r.1 ==> r.0 == ZeroNodeInfo
  {
    if chainID in table && nodeID in table[chainID] then (table[chainID][nodeID], true) else (ZeroNodeInfo, false)
  }

  /** IsValidator: a node registered under the chain whose ID starts with "validator". */
  function IsValidator(table: NodeTable, chainID: string, nodeID: string): (b: bool)
    ensures b ==> GetNodeInfo(table, chainID, nodeID).1
    ensures b <==> GetNodeInfo(table, chainID, nodeID).1 && HasPrefix(nodeID, "validator")
  {
    if chainID in table && nodeID in table[chainID] then HasPrefix(nodeID, "validator") else false
  }

  class Registry {
    var chainNodes: NodeTable

    constructor ()
      ensures chainNodes == map[]
    {
      chainNodes := map[];
    }

    method RegisterNode(chainID: string, nodeID: string, info: NodeInfo)
      modifies this
      ensures chainNodes == WithNode(old(chainNodes), chainID, nodeID, info)
    {
      if chainID !in chainNodes {
        chainNodes := chainNodes[chainID := map[]];
      }
      chainNodes := chainNodes[chainID := chainNodes[chainID][nodeID := info]];
    }

    /** GetRPCPortForChain: the RPC port of a genesis node of the chain, or the error for a missing chain or genesis node. */
    method GetRPCPortForChain(chainID: string) returns (r: Result<int, string>)
      ensures chainID !in chainNodes ==> r == Failure("chain " + chainID + " not found")
      ensures chainID in chainNodes && !HasGenesis(chainNodes, chainID) ==>
                r == Failure("genesis node not found for chain " + chainID)
      ensures r.Success? <==> HasGenesis(chainNodes, chainID)
      ensures r.Success? ==> exists n :: n in chainNodes[chainID] && chainNodes[chainID][n].isGenesis
                                        && chainNodes[chainID][n].rpcPort == r.value
    {
      if chainID !in chainNodes {
        return Failure("chain " + chainID + " not found");
      }
      var nodes := chainNodes[chainID];
      var remaining := nodes.Keys;
      while remaining != {}
        invariant remaining <= nodes.Keys
        invariant forall n :: n in nodes && n !in remaining ==> !nodes[n].isGenesis
        decreases |remaining|
      {
        var n :| n in remaining;
        if nodes[n].isGenesis {
          return Success(nodes[n].rpcPort);
        }
        remaining := remaining - {n};
      }
      return Failure("genesis node not found for chain " + chainID);
    }

    /** GetNodeByAPIPort: a node whose API port, written in decimal, is `apiPort`, or "", NodeInfo{} and false. */
    method GetNodeByAPIPort(chainID: string, apiPort: string) returns (nodeID: string, info: NodeInfo, found: bool)
      ensures found <==> ServesApiPort(chainNodes, chainID, apiPort)
      ensures found ==> nodeID in chainNodes[chainID] && chainNodes[chainID][nodeID] == info
                        && IntToString(info.apiPort) == apiPort
      ensures !found ==> nodeID == "" && info == ZeroNodeInfo
    {
      if chainID !in chainNodes {
        return "", ZeroNodeInfo, false;
      }
      var nodes := chainNodes[chainID];
      var remaining := nodes.Keys;
      while remaining != {}
        invariant remaining <= nodes.Keys
        invariant forall n :: n in nodes && n !in remaining ==> IntToString(nodes[n].apiPort) != apiPort
        decreases |remaining|
      {
        var n :| n in remaining;
        if IntToString(nodes[n].apiPort) == apiPort {
          return n, nodes[n], true;
        }
        remaining := remaining - {n};
      }
      return "", ZeroNodeInfo, false;
    }

    /** GetNodeInfoByChainID: a copy of the chain's map, or an empty (nil) map and false. */
    method GetNodeInfoByChainID(chainID: string) returns (nodesCopy: map<string, NodeInfo>, found: bool)
      ensures found <==> chainID in chainNodes
      ensures found ==> nodesCopy == chainNodes[chainID]
      ensures !found ==> nodesCopy == map[]
    {
      if chainID !in chainNodes {
        return map[], false;
      }
      var nodes := chainNodes[chainID];
      nodesCopy := map[];
      var remaining := nodes.Keys;
      while remaining != {}
        invariant remaining <= nodes.Keys
        invariant nodesCopy == map n | n in nodes.Keys - remaining :: nodes[n]
        decreases |remaining|
      {
        var n :| n in remaining;
        nodesCopy := nodesCopy[n := nodes[n]];
        remaining := remaining - {n};
      }
      assert nodesCopy.Keys == nodes.Keys;
      found := true;
    }
  }

  // ---------------------------------------------------------- properties

  /** RegisterNode stores exactly the one entry and leaves every other entry as it was. */
  lemma RegisterNodeStores(table: NodeTable, chainID: string, nodeID: string, info: NodeInfo, c: string, n: string)
    ensures GetNodeInfo(WithNode(table, chainID, nodeID, info), c, n)
         == if c == chainID && n == nodeID then (info, true) else GetNodeInfo(table, c, n)
  {
  }

  /** Registering a genesis node makes the chain report one; registering an ordinary node never creates one. */
  lemma RegisterNodeGenesis(table: NodeTable, chainID: string, nodeID: string, info: NodeInfo)
    ensures info.isGenesis ==> HasGenesis(WithNode(table, chainID, nodeID, info), chainID)
    ensures !info.isGenesis && HasGenesis(WithNode(table, chainID, nodeID, info), chainID) ==> HasGenesis(table, chainID)
  {
    var after: NodeTable := WithNode(table, chainID, nodeID, info);
    if info.isGenesis {
      assert nodeID in after[chainID] && after[chainID][nodeID].isGenesis;
    }
  }

  /** A node registered with an API port is found by the decimal text of that port. */
  lemma RegisteredNodeServesItsPort(table: NodeTable, chainID: string, nodeID: string, info: NodeInfo)
    ensures ServesApiPort(WithNode(table, chainID, nodeID, info), chainID, IntToString(info.apiPort))
  {
    var after: NodeTable := WithNode(table, chainID, nodeID, info);
    assert nodeID in after[chainID] && after[chainID][nodeID] == info;
  }

  /** A registered node is a validator exactly when its ID starts with "validator", whatever its info says. */
  lemma RegisteredValidator(table: NodeTable, chainID: string, nodeID: string, info: NodeInfo)
    ensures IsValidator(WithNode(table, chainID, nodeID, info), chainID, nodeID) <==> HasPrefix(nodeID, "validator")
  {
  }
}
