/** The fund-flow diagram in the dashboard's transaction detail: a fixed
    graph of five nodes (user, device, issuer, merchant and the merchant's
    city) and four links for one transaction, the name shown for a link
    end, and the hover tooltips. */
module FlowGraph {
  import opened Base
  import opened DashboardTypes
  import opened GraphInteraction
  import GraphBuilder

  datatype FlowNodeType = USER | DEVICE | ISSUER | MERCHANT | LOCATION

  /** The colour per node type. */
  function TypeColor(ty: FlowNodeType): string {
    match ty
    case USER => "#3b82f6"
    case DEVICE => "#a855f7"
    case ISSUER => "#22c55e"
    case MERCHANT => "#f59e0b"
    case LOCATION => "#ef4444"
  }

  datatype FlowNode = FlowNode(id: string, name: string, ty: FlowNodeType, val: int, color: string)

  datatype FlowLink = FlowLink(source: string, target: string, ty: GraphBuilder.LinkType,
                               caption: string, amount: Option<real>)

  datatype FlowData = FlowData(nodes: seq<FlowNode>, links: seq<FlowLink>)

  /** The id of the city node. */
  function LocationId(txn: DashTransaction): string {
    "loc-" + txn.merchantCity
  }

  /** `graphData`: the five nodes and four links of one transaction. */
  function FlowGraphOf(txn: DashTransaction): FlowData {
    var nodes := [
      FlowNode(txn.userId, txn.userId, USER, 12, TypeColor(USER)),
      FlowNode(txn.deviceId, txn.deviceId + " (" + OsName(txn.deviceOs) + ")", DEVICE, 8, TypeColor(DEVICE)),
      FlowNode(txn.issuerId, txn.issuerId + " (" + txn.issuerCountry + ")", ISSUER, 10, TypeColor(ISSUER)),
      FlowNode(txn.merchantId, txn.merchantId, MERCHANT, 10, TypeColor(MERCHANT)),
      FlowNode(LocationId(txn), txn.merchantCity, LOCATION, 8, TypeColor(LOCATION))];
    var links := [
      FlowLink(txn.userId, txn.deviceId, GraphBuilder.OWNERSHIP, "uses", None),
      FlowLink(txn.userId, txn.issuerId, GraphBuilder.PAYMENT, "via", Some(txn.amountIdr)),
      FlowLink(txn.issuerId, txn.merchantId, GraphBuilder.PAYMENT, "pays", Some(txn.amountIdr)),
      FlowLink(txn.merchantId, LocationId(txn), GraphBuilder.LOCATION, "at", None)];
    FlowData(nodes, links)
  }

  /** Some node of the list has this id. */
  predicate HasFlowNode(nodes: seq<FlowNode>, id: string) {
    exists i :: 0 <= i < |nodes| && nodes[i].id == id
  }

  /** The shape of the fund-flow graph: five nodes with one of each type,
      four links whose ends all are node ids, and an amount (the
      transaction's) exactly on the two payment links. */
  lemma FlowGraphShape(txn: DashTransaction)
    ensures |FlowGraphOf(txn).nodes| == 5 && |FlowGraphOf(txn).links| == 4
    ensures forall i, j :: 0 <= i < j < 5 ==> FlowGraphOf(txn).nodes[i].ty != FlowGraphOf(txn).nodes[j].ty
    ensures forall k :: 0 <= k < 4 ==>
      HasFlowNode(FlowGraphOf(txn).nodes, FlowGraphOf(txn).links[k].source)
      && HasFlowNode(FlowGraphOf(txn).nodes, FlowGraphOf(txn).links[k].target)
    ensures forall k :: 0 <= k < 4 ==>
      (FlowGraphOf(txn).links[k].ty == GraphBuilder.PAYMENT <==> FlowGraphOf(txn).links[k].amount.Some?)
      && (FlowGraphOf(txn).links[k].amount.Some? ==> FlowGraphOf(txn).links[k].amount.value == txn.amountIdr)
  {
    var g := FlowGraphOf(txn);
    assert g.nodes[0].id == txn.userId && g.nodes[1].id == txn.deviceId && g.nodes[2].id == txn.issuerId;
    assert g.nodes[3].id == txn.merchantId && g.nodes[4].id == LocationId(txn);
  }

  /** `nodes.find(n => n.id === id)`: the first node with that id. */
  function FindFlowNode(nodes: seq<FlowNode>, id: string): (r: Option<FlowNode>)
    ensures r.None? <==> !HasFlowNode(nodes, id)
    ensures r.Some? ==> exists i :: 0 <= i < |nodes| && nodes[i] == r.value && r.value.id == id
                          && forall j :: 0 <= j < i ==> nodes[j].id != id
  {
    if |nodes| == 0 then None
    else if nodes[0].id == id then
      Some(nodes[0])
    else
      var r := FindFlowNode(nodes[1..], id);
      if r.None? then
        assert forall i :: 1 <= i < |nodes| ==> nodes[i] == nodes[1..][i - 1];
        r
      else
        var i :| 0 <= i < |nodes[1..]| && nodes[1..][i] == r.value && r.value.id == id
                 && forall j :: 0 <= j < i ==> nodes[1..][j].id != id;
        assert nodes[i + 1] == r.value;
        assert forall j :: 0 <= j < i + 1 ==> nodes[j].id != id by {
          forall j | 0 <= j < i + 1 ensures nodes[j].id != id {
            if j > 0 { assert nodes[j] == nodes[1..][j - 1]; }
          }
        }
        r
  }

  /** `getNodeName` over the fund-flow nodes: the same rules as the
      visualizer's. */
  function FlowNodeName(nodes: seq<FlowNode>, endpoint: Endpoint): (r: string)
    ensures endpoint.Ref? && FindFlowNode(nodes, endpoint.id).Some? ==> r == FindFlowNode(nodes, endpoint.id).value.name
    ensures endpoint.Ref? && !HasFlowNode(nodes, endpoint.id) ==> r == endpoint.id
    ensures endpoint.NodeObject? && Truthy(endpoint.objName) ==> r == endpoint.objName.value
    ensures endpoint.NodeObject? && !Truthy(endpoint.objName) && Truthy(endpoint.objId) ==> r == endpoint.objId.value
    ensures !endpoint.Ref? && !(endpoint.NodeObject? && (Truthy(endpoint.objName) || Truthy(endpoint.objId))) ==> r == "—"
  {
    match endpoint
    case Ref(id) =>
      var found := FindFlowNode(nodes, id);
      if found.Some? then found.value.name else id
    case NodeObject(name, id) =>
      if Truthy(name) then name.value else if Truthy(id) then id.value else "—"
    case Absent => "—"
  }

  /** Every link end of the fund-flow graph resolves to a node's name; the
      source of the first link is the user's id, which is also its name. */
  lemma FlowEndpointsResolve(txn: DashTransaction, k: nat)
    requires k < 4
    ensures FindFlowNode(FlowGraphOf(txn).nodes, FlowGraphOf(txn).links[k].source).Some?
    ensures FindFlowNode(FlowGraphOf(txn).nodes, FlowGraphOf(txn).links[k].target).Some?
    ensures FlowNodeName(FlowGraphOf(txn).nodes, Ref(txn.userId)) == txn.userId
  {
    FlowGraphShape(txn);
  }

  datatype NodeTooltip = NodeTooltip(x: int, y: int, node: FlowNode)
  datatype FlowLinkTooltip = FlowLinkTooltip(x: int, y: int, link: FlowLink)

  /** The diagram's hover state; the hovered-link ref is the `hoverLink`
      field, as in the visualizer. */
  class FlowHover {
    var hoverNode: Option<FlowNode>
    var nodeTooltip: Option<NodeTooltip>
    var hoverLink: Option<FlowLink>
    var linkTooltip: Option<FlowLinkTooltip>
    var mousePos: Point

    constructor ()
      ensures hoverNode == None && nodeTooltip == None && hoverLink == None && linkTooltip == None
      ensures mousePos == Point(0, 0)
    {
      hoverNode := None;
      nodeTooltip := None;
      hoverLink := None;
      linkTooltip := None;
      mousePos := Point(0, 0);
    }

    /** `handleNodeHover`: a node shows its tooltip at the pointer; none hides it. */
    method HandleNodeHover(node: Option<FlowNode>)
      modifies this
      ensures hoverNode == node
      ensures node.Some? ==> nodeTooltip == Some(NodeTooltip(mousePos.x, mousePos.y, node.value))
      ensures node.None? ==> nodeTooltip == None
      ensures hoverLink == old(hoverLink) && linkTooltip == old(linkTooltip) && mousePos == old(mousePos)
    {
      hoverNode := node;
      if node.Some? {
        nodeTooltip := Some(NodeTooltip(mousePos.x, mousePos.y, node.value));
      } else {
        nodeTooltip := None;
      }
    }

    /** `handleLinkHover`: a link shows its tooltip at the pointer; none hides it. */
    method HandleLinkHover(link: Option<FlowLink>)
      modifies this
      ensures hoverLink == link
      ensures link.Some? ==> linkTooltip == Some(FlowLinkTooltip(mousePos.x, mousePos.y, link.value))
      ensures link.None? ==> linkTooltip == None
      ensures hoverNode == old(hoverNode) && nodeTooltip == old(nodeTooltip) && mousePos == old(mousePos)
    {
      hoverLink := link;
      if link.Some? {
        linkTooltip := Some(FlowLinkTooltip(mousePos.x, mousePos.y, link.value));
      } else {
        linkTooltip := None;
      }
    }

    /** The container's mouse-move listener: records the pointer and moves
        the link tooltip while a link is hovered; the node tooltip stays put. */
    method MouseMove(rel: Point)
      modifies this
      ensures mousePos == rel
      ensures old(hoverLink).Some? ==> linkTooltip == Some(FlowLinkTooltip(rel.x, rel.y, old(hoverLink).value))
      ensures old(hoverLink).None? ==> linkTooltip == old(linkTooltip)
      ensures hoverNode == old(hoverNode) && nodeTooltip == old(nodeTooltip) && hoverLink == old(hoverLink)
    {
      mousePos := rel;
      if hoverLink.Some? {
        linkTooltip := Some(FlowLinkTooltip(mousePos.x, mousePos.y, hoverLink.value));
      }
    }
  }
}
