/** Messages between clients and nodes, as values. */
module Messages {
  import ShoppingLists

  datatype NodeInfo = NodeInfo(
    nodeId: string,
    host: string,
    shardId: nat,
    clientPort: int,
    gossipPullPort: int,
    discoveryPullPort: int,
    lastSeenTs: nat)

  datatype OpType =
    | ENSURE_LIST
    | DELETE_LIST
    | GET_LIST
    | LIST_RESPONSE
    | NO_LIST_RESPONSE
    | GOSSIP_LISTS
    | GOSSIP_NODES
    | GET_NODES
    | NODES_RESPONSE

  datatype Message = Message(op: OpType, origin: string, ts: nat, lists: seq<ShoppingLists.List>, nodes: seq<NodeInfo>)

  function EnsureList(origin: string, ts: nat, l: ShoppingLists.List): Message {
    Message(ENSURE_LIST, origin, ts, [l], [])
  }

  function DeleteList(origin: string, ts: nat, listUid: string): Message {
    Message(DELETE_LIST, origin, ts, [ShoppingLists.EmptyList(listUid, "")], [])
  }

  function GetList(origin: string, ts: nat, listUid: string): Message {
    Message(GET_LIST, origin, ts, [ShoppingLists.EmptyList(listUid, "")], [])
  }

  function ListResponse(isValid: bool, origin: string, ts: nat, l: ShoppingLists.List): Message {
    Message(if isValid then LIST_RESPONSE else NO_LIST_RESPONSE, origin, ts, [l], [])
  }

  function GossipLists(origin: string, ts: nat, lists: seq<ShoppingLists.List>): Message {
    Message(GOSSIP_LISTS, origin, ts, lists, [])
  }

  function GossipNodes(origin: string, ts: nat, nodes: seq<NodeInfo>): Message {
    Message(GOSSIP_NODES, origin, ts, [], nodes)
  }

  function NodesResponse(origin: string, ts: nat, nodes: seq<NodeInfo>): Message {
    Message(NODES_RESPONSE, origin, ts, [], nodes)
  }
}
