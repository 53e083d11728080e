/** The visualizer's interaction state: which node is hovered and which is
    selected (with the click point where its card opens), which link is
    hovered and where its tooltip sits, plus the read-only queries the page
    asks of the graph (connections of a node, the display name of a link
    end, the number of high-risk nodes). Pointer positions are integer
    pixels relative to the graph container. */
module GraphInteraction {
  import opened Base
  import opened Risk
  import opened ApiTypes
  import opened GraphBuilder

  datatype Point = Point(x: int, y: int)

  /** The edge tooltip: where it is drawn and which link it describes. */
  datatype LinkTooltip = LinkTooltip(x: int, y: int, link: GraphLink)

  /** A link end as the force-graph hands it over: still the id string the
      builder wrote, the node object the engine substituted for it (whose
      `name` and `id` may be empty or missing), or nothing at all. */
  datatype Endpoint = Ref(id: string) | NodeObject(objName: Option<string>, objId: Option<string>) | Absent

  /** The hook's state. The source keeps the hovered link twice, as state and
      as a ref synchronised on every render; the two always agree between
      events, so one field stands for both. */
  class Interaction {
    var hoverNode: Option<GraphNode>
    var selectedNode: Option<GraphNode>
    var selectedNodePos: Point
    var hoverLink: Option<GraphLink>
    var linkTooltip: Option<LinkTooltip>
    var mousePos: Point

    /** Nothing hovered or selected; positions at the origin. */
    constructor ()
      ensures hoverNode == None && selectedNode == None && hoverLink == None && linkTooltip == None
      ensures selectedNodePos == Point(0, 0) && mousePos == Point(0, 0)
    {
      hoverNode := None;
      selectedNode := None;
      selectedNodePos := Point(0, 0);
      hoverLink := None;
      linkTooltip := None;
      mousePos := Point(0, 0);
    }

    /** `setHoverNode`. */
    method SetHoverNode(node: Option<GraphNode>)
      modifies this
      ensures hoverNode == node
      ensures selectedNode == old(selectedNode) && selectedNodePos == old(selectedNodePos)
      ensures hoverLink == old(hoverLink) && linkTooltip == old(linkTooltip) && mousePos == old(mousePos)
    {
      hoverNode := node;
    }

    /** The container's mouse-move listener: records the pointer and, while a
        link is hovered, moves its tooltip there. `rel` is the pointer
        relative to the container's top-left corner. */
    method MouseMove(rel: Point)
      modifies this
      ensures mousePos == rel
      ensures old(hoverLink).Some? ==> linkTooltip == Some(LinkTooltip(rel.x, rel.y, old(hoverLink).value))
      ensures old(hoverLink).None? ==> linkTooltip == old(linkTooltip)
      ensures hoverNode == old(hoverNode) && selectedNode == old(selectedNode)
      ensures selectedNodePos == old(selectedNodePos) && hoverLink == old(hoverLink)
    {
      mousePos := rel;
      if hoverLink.Some? {
        linkTooltip := Some(LinkTooltip(mousePos.x, mousePos.y, hoverLink.value));
      }
    }

    /** `handleNodeClick`: clicking the selected node (same id) deselects it
        and leaves the card position alone; clicking any other node selects
        it and, when the container is mounted (`rel` present), opens the card
        at the click point. */
    method HandleNodeClick(node: GraphNode, rel: Option<Point>)
      modifies this
      ensures old(selectedNode).Some? && old(selectedNode).value.id == node.id ==>
        selectedNode == None && selectedNodePos == old(selectedNodePos)
      ensures !(old(selectedNode).Some? && old(selectedNode).value.id == node.id) ==>
        selectedNode == Some(node) && selectedNodePos == rel.GetOr(old(selectedNodePos))
      ensures hoverNode == old(hoverNode) && hoverLink == old(hoverLink)
      ensures linkTooltip == old(linkTooltip) && mousePos == old(mousePos)
    {
      if selectedNode.Some? && selectedNode.value.id == node.id {
        selectedNode := None;
        return;
      }
      if rel.Some? {
        selectedNodePos := rel.value;
      }
      selectedNode := Some(node);
    }

    /** `handleLinkHover`: hovering a link shows its tooltip at the last
        pointer position; leaving it (`None`) hides the tooltip. */
    method HandleLinkHover(link: Option<GraphLink>)
      modifies this
      ensures hoverLink == link
      ensures link.Some? ==> linkTooltip == Some(LinkTooltip(mousePos.x, mousePos.y, link.value))
      ensures link.None? ==> linkTooltip == None
      ensures hoverNode == old(hoverNode) && selectedNode == old(selectedNode)
      ensures selectedNodePos == old(selectedNodePos) && mousePos == old(mousePos)
    {
      hoverLink := link;
      if link.Some? {
        linkTooltip := Some(LinkTooltip(mousePos.x, mousePos.y, link.value));
      } else {
        linkTooltip := None;
      }
    }

    /** `handleBackgroundClick`: always clears the selection. */
    method HandleBackgroundClick()
      modifies this
      ensures selectedNode == None
      ensures selectedNodePos == old(selectedNodePos) && hoverNode == old(hoverNode)
      ensures hoverLink == old(hoverLink) && linkTooltip == old(linkTooltip) && mousePos == old(mousePos)
    {
      selectedNode := None;
    }
  }

  // -------------------------------------------------------------- queries

  /** The link starts or ends at `id`. */
  predicate LinkTouches(l: GraphLink, id: string) {
    l.source == id || l.target == id
  }

  /** `getConnectionCount`: the number of links starting or ending at `id`
      (a link from `id` to itself is one link, counted once). */
  function ConnectionCount(links: seq<GraphLink>, id: string): (n: nat)
    ensures n <= |links|
  {
    if |links| == 0 then 0
    else ConnectionCount(links[..|links| - 1], id) + (if LinkTouches(links[|links| - 1], id) then 1 else 0)
  }

  /** A node has connections exactly when some link touches it, and then
      at most one per link. */
  lemma {:induction false} ConnectionCountPositive(links: seq<GraphLink>, id: string)
    ensures ConnectionCount(links, id) > 0 <==> Touches(links, id)
  {
    if |links| > 0 {
      var init := links[..|links| - 1];
      ConnectionCountPositive(init, id);
      if Touches(init, id) {
        var k :| 0 <= k < |init| && (init[k].source == id || init[k].target == id);
        assert links[k] == init[k];
      }
      if Touches(links, id) && !LinkTouches(links[|links| - 1], id) {
        var k :| 0 <= k < |links| && (links[k].source == id || links[k].target == id);
        assert init[k] == links[k];
      }
      if LinkTouches(links[|links| - 1], id) {
        assert links[|links| - 1].source == id || links[|links| - 1].target == id;
      }
    }
  }

  /** The count over two runs of links is the sum of the counts. */
  lemma {:induction false} ConnectionCountAppend(a: seq<GraphLink>, b: seq<GraphLink>, id: string)
    ensures ConnectionCount(a + b, id) == ConnectionCount(a, id) + ConnectionCount(b, id)
    decreases |b|
  {
    if |b| > 0 {
      assert (a + b)[..|a + b| - 1] == a + b[..|b| - 1];
      ConnectionCountAppend(a, b[..|b| - 1], id);
    } else {
      assert a + b == a;
    }
  }

  /** On a graph built from transactions every node has at least one
      connection. */
  lemma BuiltNodesConnected(txns: seq<Transaction>, j: nat)
    requires j < |Build(txns).nodes|
    ensures ConnectionCount(Build(txns).links, Build(txns).nodes[j].id) >= 1
  {
    NoIsolatedNodes(txns);
    ConnectionCountPositive(Build(txns).links, Build(txns).nodes[j].id);
  }

  // ------------------------------------------------ link ends after layout

  /** A link as the force-graph engine holds it. The builder hands it id
      strings; once the engine has laid the graph out it has replaced each
      end by the node object it names. */
  datatype LiveLink = LiveLink(source: Endpoint, target: Endpoint)

  /** The builder's links as handed to the engine. */
  function AsHanded(links: seq<GraphLink>): seq<LiveLink> {
    seq(|links|, k requires 0 <= k < |links| => LiveLink(Ref(links[k].source), Ref(links[k].target)))
  }

  /** The object that replaces an id end: the first node with that id. An id
      no node has stays a string (the engine's error for it is not modelled). */
  function NodeEnd(nodes: seq<GraphNode>, id: string): Endpoint {
    match FindNode(nodes, id)
    case Some(n) => NodeObject(Some(n.name), Some(n.id))
    case None => Ref(id)
  }

  /** The builder's links after the engine's first layout. */
  function AfterLayout(nodes: seq<GraphNode>, links: seq<GraphLink>): seq<LiveLink> {
    seq(|links|, k requires 0 <= k < |links| =>
      LiveLink(NodeEnd(nodes, links[k].source), NodeEnd(nodes, links[k].target)))
  }

  /** `l.source === nodeId || l.target === nodeId`: strict equality with a
      string holds only for an end that is still that string. */
  predicate StrictlyTouches(l: LiveLink, id: string) {
    l.source == Ref(id) || l.target == Ref(id)
  }

  /** `getConnectionCount` as written, over the links the engine holds. */
  function ConnectionCountAsWritten(links: seq<LiveLink>, id: string): (n: nat)
    ensures n <= |links|
  {
    if |links| == 0 then 0
    else ConnectionCountAsWritten(links[..|links| - 1], id) + (if StrictlyTouches(links[|links| - 1], id) then 1 else 0)
  }

  /** The id an end stands for, in either form. */
  function EndId(e: Endpoint): Option<string> {
    match e
    case Ref(i) => Some(i)
    case NodeObject(_, i) => i
    case Absent => None
  }

  /** The link starts or ends at `id`, whichever form its ends have. */
  predicate LiveTouches(l: LiveLink, id: string) {
    EndId(l.source) == Some(id) || EndId(l.target) == Some(id)
  }

  /** `getConnectionCount` comparing the id each end stands for, as
      `getNodeName` already reads ends of both forms. */
  function LiveConnectionCount(links: seq<LiveLink>, id: string): (n: nat)
    ensures n <= |links|
  {
    if |links| == 0 then 0
    else LiveConnectionCount(links[..|links| - 1], id) + (if LiveTouches(links[|links| - 1], id) then 1 else 0)
  }

  /** Two link lists touching `id` at the same positions have the same
      corrected count. */
  lemma {:induction false} LiveCountAgrees(a: seq<GraphLink>, b: seq<LiveLink>, id: string)
    requires |a| == |b|
    requires forall k :: 0 <= k < |a| ==> (LinkTouches(a[k], id) <==> LiveTouches(b[k], id))
    ensures LiveConnectionCount(b, id) == ConnectionCount(a, id)
    decreases |a|
  {
    if |a| > 0 {
      LiveCountAgrees(a[..|a| - 1], b[..|b| - 1], id);
    }
  }

  /** Two link lists touching `id` strictly at the same positions have the
      same count as written. */
  lemma {:induction false} AsWrittenCountAgrees(a: seq<GraphLink>, b: seq<LiveLink>, id: string)
    requires |a| == |b|
    requires forall k :: 0 <= k < |a| ==> (LinkTouches(a[k], id) <==> StrictlyTouches(b[k], id))
    ensures ConnectionCountAsWritten(b, id) == ConnectionCount(a, id)
    decreases |a|
  {
    if |a| > 0 {
      AsWrittenCountAgrees(a[..|a| - 1], b[..|b| - 1], id);
    }
  }

  /** No link touches `id` strictly, so the count as written is zero. */
  lemma {:induction false} AsWrittenCountZero(b: seq<LiveLink>, id: string)
    requires forall k :: 0 <= k < |b| ==> !StrictlyTouches(b[k], id)
    ensures ConnectionCountAsWritten(b, id) == 0
    decreases |b|
  {
    if |b| > 0 {
      AsWrittenCountZero(b[..|b| - 1], id);
    }
  }

  /** Before the first layout both counts agree with the count over the
      builder's id strings. */
  lemma CountsBeforeLayout(links: seq<GraphLink>, id: string)
    ensures ConnectionCountAsWritten(AsHanded(links), id) == ConnectionCount(links, id)
    ensures LiveConnectionCount(AsHanded(links), id) == ConnectionCount(links, id)
  {
    AsWrittenCountAgrees(links, AsHanded(links), id);
    LiveCountAgrees(links, AsHanded(links), id);
  }

  /** An end replaced by its node stands for the same id and is no longer a
      string. */
  lemma NodeEndResolved(nodes: seq<GraphNode>, id: string)
    requires FindNode(nodes, id).Some?
    ensures EndId(NodeEnd(nodes, id)) == Some(id) && !NodeEnd(nodes, id).Ref?
  {
  }

  /** As written, after the first layout of a built graph every node counts
      zero connections, although each has at least one. */
  lemma AsWrittenMissesLaidOutLinks(txns: seq<Transaction>, j: nat)
    requires j < |Build(txns).nodes|
    ensures ConnectionCount(Build(txns).links, Build(txns).nodes[j].id) >= 1
    ensures ConnectionCountAsWritten(AfterLayout(Build(txns).nodes, Build(txns).links), Build(txns).nodes[j].id) == 0
  {
    var g := Build(txns);
    var live := AfterLayout(g.nodes, g.links);
    BuiltNodesConnected(txns, j);
    forall k | 0 <= k < |live| ensures !StrictlyTouches(live[k], g.nodes[j].id) {
      EndpointsResolve(txns, k);
      NodeEndResolved(g.nodes, g.links[k].source);
      NodeEndResolved(g.nodes, g.links[k].target);
    }
    AsWrittenCountZero(live, g.nodes[j].id);
  }

  /** Corrected, the count after the first layout is the count over the
      builder's links, so every node of a built graph keeps at least one. */
  lemma BuiltNodesConnectedAfterLayout(txns: seq<Transaction>, j: nat)
    requires j < |Build(txns).nodes|
    ensures LiveConnectionCount(AfterLayout(Build(txns).nodes, Build(txns).links), Build(txns).nodes[j].id)
            == ConnectionCount(Build(txns).links, Build(txns).nodes[j].id) >= 1
  {
    var g := Build(txns);
    var live := AfterLayout(g.nodes, g.links);
    BuiltNodesConnected(txns, j);
    forall k | 0 <= k < |live| ensures LinkTouches(g.links[k], g.nodes[j].id) <==> LiveTouches(live[k], g.nodes[j].id) {
      EndpointsResolve(txns, k);
      NodeEndResolved(g.nodes, g.links[k].source);
      NodeEndResolved(g.nodes, g.links[k].target);
    }
    LiveCountAgrees(g.links, live, g.nodes[j].id);
  }

  /** `nodes.find(n => n.id === id)`: the first node with that id. */
  function FindNode(nodes: seq<GraphNode>, id: string): (r: Option<GraphNode>)
    ensures r.None? ==> forall i :: 0 <= i < |nodes| ==> nodes[i].id != id
    ensures r.Some? ==> exists i :: 0 <= i < |nodes| && nodes[i] == r.value && r.value.id == id
                          && forall j :: 0 <= j < i ==> nodes[j].id != id
  {
    if |nodes| == 0 then None
    else if nodes[0].id == id then
      Some(nodes[0])
    else
      var r := FindNode(nodes[1..], id);
      if r.Some? then
        var i :| 0 <= i < |nodes[1..]| && nodes[1..][i] == r.value && r.value.id == id
                 && forall j :: 0 <= j < i ==> nodes[1..][j].id != id;
        assert nodes[i + 1] == r.value;
        assert forall j :: 0 <= j < i + 1 ==> nodes[j].id != id by {
          forall j | 0 <= j < i + 1 ensures nodes[j].id != id {
            if j > 0 { assert nodes[j] == nodes[1..][j - 1]; }
          }
        }
        r
      else r
  }

  /** `getNodeName`: the display name of a link end. An id string resolves
      to the name of the first node with that id, or stays the id itself; a
      node object gives its name, else its id, else a dash. */
  function GetNodeName(nodes: seq<GraphNode>, endpoint: Endpoint): (r: string)
    ensures endpoint.Ref? && FindNode(nodes, endpoint.id).Some? ==> r == FindNode(nodes, endpoint.id).value.name
    ensures endpoint.Ref? && (forall i :: 0 <= i < |nodes| ==> nodes[i].id != endpoint.id) ==> r == endpoint.id
    ensures endpoint.NodeObject? && Truthy(endpoint.objName) ==> r == endpoint.objName.value
    ensures endpoint.NodeObject? && !Truthy(endpoint.objName) && Truthy(endpoint.objId) ==> r == endpoint.objId.value
    ensures !endpoint.Ref? && !(endpoint.NodeObject? && (Truthy(endpoint.objName) || Truthy(endpoint.objId))) ==> r == "—"
  {
    match endpoint
    case Ref(id) =>
      var found := FindNode(nodes, id);
      if found.Some? then found.value.name else id
    case NodeObject(name, id) =>
      if Truthy(name) then name.value else if Truthy(id) then id.value else "—"
    case Absent => "—"
  }

  /** On a graph built from transactions both ends of every link name a
      node: the lookup never falls back to the raw id. */
  lemma EndpointsResolve(txns: seq<Transaction>, k: nat)
    requires k < |Build(txns).links|
    ensures FindNode(Build(txns).nodes, Build(txns).links[k].source).Some?
    ensures FindNode(Build(txns).nodes, Build(txns).links[k].target).Some?
  {
    var g := Build(txns);
    LinksReferToNodes(txns);
    assert HasNode(g, g.links[k].source) && HasNode(g, g.links[k].target);
  }

  /** `flaggedCount`: the nodes whose percentage score is above 70. */
  function FlaggedCount(nodes: seq<GraphNode>): (n: nat)
    ensures n <= |nodes|
  {
    if |nodes| == 0 then 0
    else FlaggedCount(nodes[..|nodes| - 1]) + (if Above(nodes[|nodes| - 1].riskScore, 70) then 1 else 0)
  }

  /** Some node is counted as flagged exactly when some node scores above 70. */
  lemma {:induction false} FlaggedCountPositive(nodes: seq<GraphNode>)
    ensures FlaggedCount(nodes) > 0 <==> exists i :: 0 <= i < |nodes| && Above(nodes[i].riskScore, 70)
  {
    if |nodes| > 0 {
      var init := nodes[..|nodes| - 1];
      FlaggedCountPositive(init);
      if exists i :: 0 <= i < |init| && Above(init[i].riskScore, 70) {
        var i :| 0 <= i < |init| && Above(init[i].riskScore, 70);
        assert nodes[i] == init[i];
      }
      if exists i :: 0 <= i < |nodes| && Above(nodes[i].riskScore, 70) {
        var i :| 0 <= i < |nodes| && Above(nodes[i].riskScore, 70);
        if i < |init| { assert init[i] == nodes[i]; }
      }
    }
  }

  /** Every node counts as flagged exactly when every node scores above 70. */
  lemma {:induction false} FlaggedCountAll(nodes: seq<GraphNode>)
    ensures FlaggedCount(nodes) == |nodes| <==> forall i :: 0 <= i < |nodes| ==> Above(nodes[i].riskScore, 70)
  {
    if |nodes| > 0 {
      var init := nodes[..|nodes| - 1];
      FlaggedCountAll(init);
      if forall i :: 0 <= i < |nodes| ==> Above(nodes[i].riskScore, 70) {
        assert forall i :: 0 <= i < |init| ==> Above(init[i].riskScore, 70) by {
          forall i | 0 <= i < |init| ensures Above(init[i].riskScore, 70) {
            assert init[i] == nodes[i];
          }
        }
      }
      if FlaggedCount(nodes) == |nodes| {
        forall i | 0 <= i < |nodes| ensures Above(nodes[i].riskScore, 70) {
          if i < |init| { assert init[i] == nodes[i]; }
        }
      }
    }
  }
}
