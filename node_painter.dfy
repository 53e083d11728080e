/** The canvas painter for visualizer nodes, reduced to its decisions:
    whether a node is dimmed (by the search query or by a focus set), its
    border colour, and which of glow, pulse ring, label and risk badge are
    drawn, together with the canvas alpha it leaves behind. Radii, gradients,
    the pulse's sine wave and text measurement are geometry, not modelled. */
module NodePainter {
  import opened Base
  import opened Text
  import opened Risk
  import opened GraphBuilder
  import opened SearchBar

  /** The canvas state the painter writes. */
  class Canvas {
    var globalAlpha: real
    var fillStyle: string
    var strokeStyle: string

    constructor ()
      ensures globalAlpha == 1.0
    {
      globalAlpha := 1.0;
      fillStyle := "#000000";
      strokeStyle := "#000000";
    }
  }

  /** What one call draws, beyond geometry. */
  datatype Paint = Paint(alpha: real, border: string, glow: bool, pulse: bool,
                         stroke: string, showLabel: bool, labelFill: string, badgeFill: Option<string>)

  /** A node is dimmed when a non-blank query fails to match it, or when
      the focus set is non-empty and leaves it out. */
  predicate IsDimmed(node: GraphNode, query: string, connected: set<string>) {
    (!IsBlank(query) && !Matches(node, query)) || (|connected| > 0 && node.id !in connected)
  }

  /** The two-step `isDimmed` computation. */
  method Dimmed(node: GraphNode, query: string, connected: set<string>) returns (isDimmed: bool)
    ensures isDimmed == IsDimmed(node, query, connected)
  {
    isDimmed := false;
    TrimEmptyIffBlank(query);
    if |Trim(query)| > 0 {
      var q := Lower(query);
      var matches := Contains(Lower(node.name), q) || Contains(Lower(node.id), q) || Contains(Lower(TypeName(node.ty)), q);
      if !matches {
        isDimmed := true;
      }
    }
    if !isDimmed && |connected| > 0 && node.id !in connected {
      isDimmed := true;
    }
  }

  /** The border colour: by risk for transactions (red above 70, else
      gray), and a fixed colour per role for the other node types. */
  function BorderColor(ty: NodeType, riskScore: Option<int>): (c: string)
    ensures ty == TRANSACTION ==> (c == "#ef4444" <==> Above(riskScore, 70))
    ensures ty != TRANSACTION ==> c != "#ef4444" && c != "#6b7280"
  {
    match ty
    case TRANSACTION => if Above(riskScore, 70) then "#ef4444" else "#6b7280"
    case USER => "#3b82f6"
    case MERCHANT => "#f59e0b"
    case ISSUER => "#10b981"
    case DEVICE => "#8b5cf6"
  }

  /** The node is hovered (the same node) or selected (the same id). */
  predicate Emphasised(node: GraphNode, hoverNode: Option<GraphNode>, selectedNode: Option<GraphNode>) {
    hoverNode == Some(node) || (selectedNode.Some? && selectedNode.value.id == node.id)
  }

  /** `paintNode` on one node. */
  method PaintNode(ctx: Canvas, node: GraphNode, hoverNode: Option<GraphNode>, selectedNode: Option<GraphNode>,
                   query: string, connected: set<string>, globalScale: real) returns (p: Paint)
    modifies ctx
    ensures ctx.globalAlpha == 1.0
    ensures p.alpha == (if IsDimmed(node, query, connected) then 0.12 else 1.0)
    ensures p.border == BorderColor(node.ty, node.riskScore)
    ensures p.glow <==> Emphasised(node, hoverNode, selectedNode)
    ensures p.pulse <==> Above(node.riskScore, 70)
    ensures p.stroke == if Emphasised(node, hoverNode, selectedNode) then p.border else p.border + "88"
    ensures p.showLabel <==> globalScale > 1.2 || Emphasised(node, hoverNode, selectedNode)
    ensures p.badgeFill.Some? <==> p.showLabel && Above(node.riskScore, 70)
    ensures p.badgeFill.Some? ==> (p.badgeFill.value == "#dc2626aa" <==> node.riskScore.value > 85)
  {
    var isHovered := hoverNode == Some(node);
    var isSelected := selectedNode.Some? && node.id == selectedNode.value.id;
    var emph := isHovered || isSelected;
    var isDimmed := Dimmed(node, query, connected);
    ctx.globalAlpha := if isDimmed then 0.12 else 1.0;
    var alpha := ctx.globalAlpha;
    var borderColor := BorderColor(node.ty, node.riskScore);
    var glow := false;
    if emph {
      glow := true;
    }
    var pulse := false;
    if node.riskScore.Some? && node.riskScore.value != 0 && node.riskScore.value > 70 {
      pulse := true;
    }
    ctx.fillStyle := "#1a1a1a";
    ctx.strokeStyle := if emph then borderColor else borderColor + "88";
    var stroke := ctx.strokeStyle;
    var showLabel := false;
    var labelFill := "";
    var badgeFill: Option<string> := None;
    if globalScale > 1.2 || emph {
      showLabel := true;
      ctx.fillStyle := if emph then "#ffffff" else "rgba(255,255,255,0.55)";
      labelFill := ctx.fillStyle;
      if node.riskScore.Some? && node.riskScore.value != 0 && node.riskScore.value > 70 {
        ctx.fillStyle := if node.riskScore.value > 85 then "#dc2626aa" else "#ea580caa";
        badgeFill := Some(ctx.fillStyle);
        ctx.fillStyle := "#fff";
      }
    }
    ctx.globalAlpha := 1.0;
    p := Paint(alpha, borderColor, glow, pulse, stroke, showLabel, labelFill, badgeFill);
  }

  /** With the focus set empty, a non-blank query leaves undimmed exactly
      the nodes the search box lists as matches. */
  lemma DimmedAgreesWithSearch(nodes: seq<GraphNode>, query: string, node: GraphNode)
    requires node in nodes && !IsBlank(query)
    ensures !IsDimmed(node, query, {}) <==> node in Filtered(nodes, query)
  {
    FilterMembers(nodes, query, node);
  }

  /** No query and no focus set dim nothing; a focus set alone dims exactly
      the nodes outside it. */
  lemma DimmingCases(node: GraphNode, query: string, connected: set<string>)
    ensures IsBlank(query) && connected == {} ==> !IsDimmed(node, query, connected)
    ensures IsBlank(query) && connected != {} ==> (IsDimmed(node, query, connected) <==> node.id !in connected)
  {
  }
}
