/** The visualizer's node search: which nodes a query matches (case-
    insensitively, by name, id or type), how many are listed, when the
    dropdown and the "no nodes found" note appear, and what picking a
    result does. */
module SearchBar {
  import opened Base
  import opened Text
  import opened Risk
  import opened GraphBuilder

  /** The type's string, as `node.type` holds it. */
  function TypeName(ty: NodeType): string {
    match ty
    case USER => "USER"
    case MERCHANT => "MERCHANT"
    case TRANSACTION => "TRANSACTION"
    case ISSUER => "ISSUER"
    case DEVICE => "DEVICE"
  }

  /** The node's lowercased name, id or type contains the lowercased query. */
  predicate Matches(n: GraphNode, query: string) {
    var q := Lower(query);
    Contains(Lower(n.name), q) || Contains(Lower(n.id), q) || Contains(Lower(TypeName(n.ty)), q)
  }

  /** `nodes.filter(n => matches)`, keeping the original order. */
  function FilterMatching(nodes: seq<GraphNode>, query: string): (r: seq<GraphNode>)
    ensures |r| <= |nodes|
    ensures forall i :: 0 <= i < |r| ==> Matches(r[i], query) && r[i] in nodes
  {
    if |nodes| == 0 then []
    else
      var init := FilterMatching(nodes[..|nodes| - 1], query);
      var last := nodes[|nodes| - 1];
      assert forall n :: n in nodes[..|nodes| - 1] ==> n in nodes;
      if Matches(last, query) then init + [last] else init
  }

  /** A node is kept exactly when it is one of the nodes and matches. */
  lemma {:induction false} FilterMembers(nodes: seq<GraphNode>, query: string, n: GraphNode)
    ensures n in FilterMatching(nodes, query) <==> n in nodes && Matches(n, query)
  {
    if |nodes| > 0 {
      var init := nodes[..|nodes| - 1];
      FilterMembers(init, query, n);
      assert nodes == init + [nodes[|nodes| - 1]];
    }
  }

  /** Filtering distributes over concatenation, so the matches of a list
      appear in the list's own order. */
  lemma {:induction false} FilterAppend(a: seq<GraphNode>, b: seq<GraphNode>, query: string)
    ensures FilterMatching(a + b, query) == FilterMatching(a, query) + FilterMatching(b, query)
    decreases |b|
  {
    if |b| == 0 {
      assert a + b == a;
    } else {
      var b0 := b[..|b| - 1];
      assert (a + b)[..|a + b| - 1] == a + b0;
      assert (a + b)[|a + b| - 1] == b[|b| - 1];
      FilterAppend(a, b0, query);
    }
  }

  /** `filtered`: no results for a blank query, else every matching node. */
  function Filtered(nodes: seq<GraphNode>, query: string): (r: seq<GraphNode>)
    ensures IsBlank(query) ==> r == []
    ensures !IsBlank(query) ==> r == FilterMatching(nodes, query)
  {
    TrimEmptyIffBlank(query);
    if |Trim(query)| > 0 then FilterMatching(nodes, query) else []
  }

  /** The dropdown lists the first eight matches. */
  function Listed(nodes: seq<GraphNode>, query: string): (r: seq<GraphNode>)
    ensures |r| <= 8
    ensures |r| == Min(8, |Filtered(nodes, query)|)
    ensures forall i :: 0 <= i < |r| ==> r[i] == Filtered(nodes, query)[i]
  {
    var f := Filtered(nodes, query);
    if |f| <= 8 then f else f[..8]
  }

  /** The risk pill of a listed node: shown above 70, red above 85. */
  function RiskPill(riskScore: Option<int>): (red: Option<bool>)
    ensures red.Some? <==> Above(riskScore, 70)
    ensures red == Some(true) <==> Above(riskScore, 85)
  {
    if Above(riskScore, 70) then Some(riskScore.value > 85) else None
  }

  /** The search box: its focus flag, and the query the page owns and the
      box clears through `onSearchChange`. */
  class SearchBox {
    var isFocused: bool
    var query: string

    constructor (query0: string)
      ensures !isFocused && query == query0
    {
      isFocused := false;
      query := query0;
    }

    /** Typing: the page stores the new query. */
    method Change(q: string)
      modifies this
      ensures query == q && isFocused == old(isFocused)
    {
      query := q;
    }

    method Focus()
      modifies this
      ensures isFocused && query == old(query)
    {
      isFocused := true;
    }

    /** The delayed blur callback. */
    method BlurTimeout()
      modifies this
      ensures !isFocused && query == old(query)
    {
      isFocused := false;
    }

    /** `handleSelect`: hands the node to `onSelectNode`, clears the query
        and drops focus. */
    method HandleSelect(node: GraphNode) returns (selected: GraphNode)
      modifies this
      ensures selected == node && query == "" && !isFocused
    {
      selected := node;
      query := "";
      isFocused := false;
    }

    /** The result dropdown: focused and with at least one match. */
    predicate DropdownShown(nodes: seq<GraphNode>)
      reads this
    {
      isFocused && |Filtered(nodes, query)| > 0
    }

    /** The "No nodes found" note: focused, non-blank query, no match. */
    predicate NoResultsShown(nodes: seq<GraphNode>)
      reads this
    {
      isFocused && |Trim(query)| > 0 && |Filtered(nodes, query)| == 0
    }
  }

  /** The dropdown and the note never show together, and while focused on
      a non-blank query one of them always does; a blank query shows neither. */
  lemma PanelsExclusive(box: SearchBox, nodes: seq<GraphNode>)
    ensures !(box.DropdownShown(nodes) && box.NoResultsShown(nodes))
    ensures box.isFocused && !IsBlank(box.query) ==> box.DropdownShown(nodes) || box.NoResultsShown(nodes)
    ensures IsBlank(box.query) ==> !box.DropdownShown(nodes) && !box.NoResultsShown(nodes)
  {
    TrimEmptyIffBlank(box.query);
  }

  /** A query matches a node when it is the node's lowercased name. */
  lemma NameMatches(n: GraphNode)
    ensures Matches(n, Lower(n.name))
  {
    LowerIdempotent(n.name);
    assert OccursAt(Lower(n.name), Lower(n.name), 0);
  }
}
