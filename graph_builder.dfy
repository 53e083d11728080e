/** The network visualizer's graph builder: it turns a list of scored
    transactions into a force-graph of transaction, payer, merchant, issuer
    and country nodes joined by four links per transaction. Nodes live in an
    insertion-ordered map keyed by id; a node met again keeps its first name,
    type, size and colour, and its risk score only ever rises. */
module GraphBuilder {
  import opened Base
  import opened Text
  import opened Risk
  import opened ApiTypes

  // ------------------------------------------------------------ data model

  datatype NodeType = USER | MERCHANT | TRANSACTION | ISSUER | DEVICE

  /** A vertex of the force-graph. `riskScore` is a percentage; the layout
      coordinates the engine adds are not modelled. */
  datatype GraphNode = GraphNode(id: string, name: string, ty: NodeType,
                                 riskScore: Option<int>, val: int, color: string)

  datatype LinkType = PAYMENT | OWNERSHIP | LOCATION

  /** An edge of the force-graph. */
  datatype GraphLink = GraphLink(source: string, target: string, id: string, ty: LinkType,
                                 amount: Option<real>, currency: Option<string>, time: string)

  datatype GraphData = GraphData(nodes: seq<GraphNode>, links: seq<GraphLink>)

  /** The graph shown before any data has arrived. */
  const EMPTY_GRAPH := GraphData([], [])

  /** The optional overrides a caller passes when creating a node. */
  datatype NodeOpts = NodeOpts(riskScore: Option<int>, val: Option<int>, color: Option<string>)

  const NO_OPTS := NodeOpts(None, None, None)

  /** Default size and colour per node type. The source also has a fallback
      for an unknown type, which the closed `NodeType` makes unreachable. */
  function DefaultVal(ty: NodeType): int {
    match ty
    case USER => 16
    case MERCHANT => 18
    case ISSUER => 14
    case DEVICE => 10
    case TRANSACTION => 12
  }

  function DefaultColor(ty: NodeType): string {
    match ty
    case USER => "#3b82f6"
    case MERCHANT => "#f59e0b"
    case ISSUER => "#10b981"
    case DEVICE => "#8b5cf6"
    case TRANSACTION => "#6b7280"
  }

  // ------------------------------------------------- node table (the Map)

  /** The contents of the builder's `Map<string, GraphNode>`: the entries and
      the order in which their keys were first inserted. */
  datatype NodeTable = NodeTable(entries: map<string, GraphNode>, order: seq<string>) {
    ghost predicate Valid() {
      (forall i, j :: 0 <= i < j < |order| ==> order[i] != order[j])
      && (forall k :: k in entries <==> k in order)
      && (forall k :: k in entries ==> entries[k].id == k)
    }
  }

  const EMPTY_TABLE := NodeTable(map[], [])

  /** The node `getOrCreateNode` inserts for an id not yet in the map. */
  function NewNode(id: string, name: string, ty: NodeType, opts: NodeOpts): GraphNode {
    GraphNode(id, name, ty, opts.riskScore, opts.val.GetOr(DefaultVal(ty)), opts.color.GetOr(DefaultColor(ty)))
  }

  /** The effect of `getOrCreateNode` on the map: insert a new node at the end
      of the order, or raise an existing node's risk score to the larger of
      its current score (absent counts as 0) and the offered one. */
  function Upsert(t: NodeTable, id: string, name: string, ty: NodeType, opts: NodeOpts): (r: NodeTable)
    requires t.Valid()
    ensures r.Valid()
    ensures forall k :: k in r.entries <==> k in t.entries || k == id
  {
    if id !in t.entries then
      NodeTable(t.entries[id := NewNode(id, name, ty, opts)], t.order + [id])
    else if opts.riskScore.Some? then
      var n := t.entries[id];
      NodeTable(t.entries[id := n.(riskScore := Some(Max(n.riskScore.GetOr(0), opts.riskScore.value)))], t.order)
    else
      t
  }

  /** What one `getOrCreateNode` call does to the map: a new id goes to the
      end of the order with its defaults filled in; an existing node keeps
      its id, name, type, size and colour; nothing else changes. */
  lemma UpsertEffect(t: NodeTable, id: string, name: string, ty: NodeType, opts: NodeOpts)
    requires t.Valid()
    ensures var r := Upsert(t, id, name, ty, opts);
      (id !in t.entries ==> r.order == t.order + [id] && r.entries[id] == NewNode(id, name, ty, opts))
      && (id in t.entries ==> r.order == t.order)
      && (forall k :: k in t.entries ==> SameIdentity(t.entries[k], r.entries[k]))
      && (forall k :: k in t.entries && k != id ==> r.entries[k] == t.entries[k])
  {
  }

  /** On an id already in the map, a call without a score changes nothing;
      one with a score sets it to the larger of the current score (absent
      counts as 0) and the offered one, so a present score never drops. */
  lemma UpsertMerge(t: NodeTable, id: string, name: string, ty: NodeType, opts: NodeOpts)
    requires t.Valid() && id in t.entries
    ensures opts.riskScore.None? ==> Upsert(t, id, name, ty, opts) == t
    ensures opts.riskScore.Some? ==>
      Upsert(t, id, name, ty, opts).entries[id].riskScore
        == Some(Max(t.entries[id].riskScore.GetOr(0), opts.riskScore.value))
    ensures t.entries[id].riskScore.Some? ==>
      var after := Upsert(t, id, name, ty, opts).entries[id].riskScore;
      after.Some? && after.value >= t.entries[id].riskScore.value
  {
  }

  /** Two versions of a node agree on everything except the risk score. */
  predicate SameIdentity(a: GraphNode, b: GraphNode) {
    a.id == b.id && a.name == b.name && a.ty == b.ty && a.val == b.val && a.color == b.color
  }

  /** `Array.from(nodeMap.values())`: the nodes in insertion order. */
  function NodesOf(t: NodeTable): (nodes: seq<GraphNode>)
    requires t.Valid()
    ensures |nodes| == |t.order|
    ensures forall i :: 0 <= i < |nodes| ==> nodes[i] == t.entries[t.order[i]]
  {
    seq(|t.order|, i requires 0 <= i < |t.order| => t.entries[t.order[i]])
  }

  /** The mutable `Map` the builder fills, with `getOrCreateNode` as its one
      updating operation. */
  class NodeMap {
    var entries: map<string, GraphNode>
    var order: seq<string>

    function Snapshot(): NodeTable
      reads this
    {
      NodeTable(entries, order)
    }

    constructor ()
      ensures Snapshot() == EMPTY_TABLE
    {
      entries := map[];
      order := [];
    }

    /** `getOrCreateNode`: returns the node stored under `id`, creating it
        first when the id is new, or raising its risk score otherwise. */
    method GetOrCreateNode(id: string, name: string, ty: NodeType, opts: NodeOpts) returns (node: GraphNode)
      requires Snapshot().Valid()
      modifies this
      ensures Snapshot() == Upsert(old(Snapshot()), id, name, ty, opts)
      ensures id in entries && node == entries[id]
    {
      if id !in entries {
        entries := entries[id := NewNode(id, name, ty, opts)];
        order := order + [id];
      } else if opts.riskScore.Some? {
        var n := entries[id];
        entries := entries[id := n.(riskScore := Some(Max(n.riskScore.GetOr(0), opts.riskScore.value)))];
      }
      node := entries[id];
    }

    /** `Array.from(nodeMap.values())`. */
    method Values() returns (nodes: seq<GraphNode>)
      requires Snapshot().Valid()
      ensures nodes == NodesOf(Snapshot())
    {
      nodes := [];
      var i := 0;
      while i < |order|
        invariant 0 <= i <= |order|
        invariant nodes == NodesOf(Snapshot())[..i]
      {
        nodes := nodes + [entries[order[i]]];
        i := i + 1;
      }
    }
  }

  // ------------------------------------------- one transaction's contribution

  function PayerShort(t: Transaction): string { Prefix(t.payer, 12) }
  function PayerId(t: Transaction): string { "P-" + PayerShort(t) }
  function MerchantId(t: Transaction): string { "M-" + t.merchant }
  function IssuerId(t: Transaction): string { "I-" + t.issuer }
  function CountryId(t: Transaction): string { "C-" + t.country }

  /** Size of a transaction node: 12 below 0.4, 16 up to 0.7, and from 0.7 on
      22 plus the score rounded to tenths. */
  function TxVal(score: real): int {
    match TierOf(score)
    case High => 22 + Round(score * 10.0)
    case Medium => 16
    case Low => 12
  }

  /** Colour of a transaction node: red, orange or grey by tier. */
  function TxColor(score: real): string {
    match TierOf(score)
    case High => "#ef4444"
    case Medium => "#f97316"
    case Low => "#6b7280"
  }

  /** A riskier transaction is never drawn smaller, and in range every size is
      between 12 and 32. */
  lemma TxValMonotone(x: real, y: real)
    requires x <= y
    ensures TxVal(x) <= TxVal(y)
    ensures 0.0 <= x <= 1.0 ==> 12 <= TxVal(x) <= 32
  {
    TierMonotone(x, y);
    if TierOf(x) == High {
      RoundMonotone(x * 10.0, y * 10.0);
    }
    if TierOf(x) == High && x <= 1.0 {
      RoundMonotone(x * 10.0, 10.0);
      RoundMonotone(7.0, x * 10.0);
    }
  }

  /** The options of the transaction's own node. */
  function TxnOpts(t: Transaction): NodeOpts {
    NodeOpts(Some(RiskPct(t.risk_score)), Some(TxVal(t.risk_score)), Some(TxColor(t.risk_score)))
  }

  /** The merchant node is offered the score only for a flagged transaction. */
  function MerchantOpts(t: Transaction): NodeOpts {
    NodeOpts(if t.is_flagged then Some(RiskPct(t.risk_score)) else None, None, None)
  }

  /** One `getOrCreateNode(id, name, type, opts)` call. */
  datatype NodeCall = NodeCall(id: string, name: string, ty: NodeType, opts: NodeOpts)

  /** The five `getOrCreateNode` calls made for one transaction, in order:
      the transaction itself, its payer, merchant, issuer and country. */
  function NodeCalls(t: Transaction): seq<NodeCall> {
    [ NodeCall(t.txn_id, t.txn_id, TRANSACTION, TxnOpts(t)),
      NodeCall(PayerId(t), PayerShort(t), USER, NO_OPTS),
      NodeCall(MerchantId(t), t.merchant, MERCHANT, MerchantOpts(t)),
      NodeCall(IssuerId(t), t.issuer, ISSUER, NO_OPTS),
      NodeCall(CountryId(t), t.country, DEVICE, NO_OPTS) ]
  }

  /** The map after making `calls` one after the other. */
  function ApplyCalls(tab: NodeTable, calls: seq<NodeCall>): (r: NodeTable)
    requires tab.Valid()
    decreases |calls|
    ensures r.Valid()
    ensures forall k :: k in r.entries <==> k in tab.entries || k in CallIds(calls)
  {
    if |calls| == 0 then tab
    else ApplyCalls(Upsert(tab, calls[0].id, calls[0].name, calls[0].ty, calls[0].opts), calls[1..])
  }

  /** The ids the calls name. */
  function CallIds(calls: seq<NodeCall>): set<string> {
    if |calls| == 0 then {} else {calls[0].id} + CallIds(calls[1..])
  }

  /** The effect of one transaction's five calls on the map. */
  function AddNodes(tab: NodeTable, t: Transaction): (r: NodeTable)
    requires tab.Valid()
    ensures r.Valid()
  {
    ApplyCalls(tab, NodeCalls(t))
  }

  /** The five calls create exactly the transaction's derived ids. */
  lemma AddNodesKeys(tab: NodeTable, t: Transaction)
    requires tab.Valid()
    ensures forall k :: k in AddNodes(tab, t).entries <==> k in tab.entries || k in DerivedIds(t)
  {
    var cs := NodeCalls(t);
    assert CallIds(cs[4..]) == {CountryId(t)} by { assert cs[4..][1..] == []; }
    assert CallIds(cs[3..]) == {IssuerId(t), CountryId(t)} by { assert cs[3..][1..] == cs[4..]; }
    assert CallIds(cs[2..]) == {MerchantId(t), IssuerId(t), CountryId(t)} by { assert cs[2..][1..] == cs[3..]; }
    assert CallIds(cs[1..]) == {PayerId(t), MerchantId(t), IssuerId(t), CountryId(t)} by { assert cs[1..][1..] == cs[2..]; }
  }

  /** The ids of the five nodes one transaction touches. */
  function DerivedIds(t: Transaction): set<string> {
    {t.txn_id, PayerId(t), MerchantId(t), IssuerId(t), CountryId(t)}
  }

  /** The four links one transaction adds, in order: ownership (payer to
      transaction), payment (transaction to merchant, with the IDR amount),
      issuer payment (transaction to issuer) and location (country to payer). */
  function TxnLinks(t: Transaction): seq<GraphLink> {
    [ GraphLink(PayerId(t), t.txn_id, "L-own-" + t.txn_id, OWNERSHIP, None, None, t.timestamp),
      GraphLink(t.txn_id, MerchantId(t), "L-pay-" + t.txn_id, PAYMENT, Some(t.amount_idr), Some("IDR"), t.timestamp),
      GraphLink(t.txn_id, IssuerId(t), "L-iss-" + t.txn_id, PAYMENT, None, None, t.timestamp),
      GraphLink(CountryId(t), PayerId(t), "L-geo-" + t.txn_id, LOCATION, None, None, t.timestamp) ]
  }

  // ------------------------------------------------- the whole build (spec)

  /** The node map after the loop has processed `txns`, as a left fold. */
  function TableFrom(txns: seq<Transaction>): (t: NodeTable)
    ensures t.Valid()
  {
    if |txns| == 0 then EMPTY_TABLE else AddNodes(TableFrom(txns[..|txns| - 1]), txns[|txns| - 1])
  }

  /** The link list after the loop has processed `txns`. */
  function LinksFrom(txns: seq<Transaction>): seq<GraphLink> {
    if |txns| == 0 then [] else LinksFrom(txns[..|txns| - 1]) + TxnLinks(txns[|txns| - 1])
  }

  /** `buildGraphFromTransactions` as a function of its input. */
  function Build(txns: seq<Transaction>): GraphData {
    GraphData(NodesOf(TableFrom(txns)), LinksFrom(txns))
  }

  // ------------------------------------------------------- the method

  /** The colour and size of a transaction node: the red, orange or grey
      branch of the builder, picked by the risk tier of the score. */
  method TransactionStyle(score: real) returns (txColor: string, txVal: int)
    ensures txColor == TxColor(score) && txVal == TxVal(score)
  {
    txColor := "#6b7280";
    txVal := 12;
    if score >= 0.7 {
      txColor := "#ef4444";
      txVal := 22 + Round(score * 10.0);
    } else if score >= 0.4 {
      txColor := "#f97316";
      txVal := 16;
    }
  }

  /** The five `getOrCreateNode` calls the builder makes for one transaction:
      the transaction, its payer, merchant, issuer and country. */
  method AddTransactionNodes(nodeMap: NodeMap, txn: Transaction) returns (payerShort: string)
    requires nodeMap.Snapshot().Valid()
    modifies nodeMap
    ensures nodeMap.Snapshot() == AddNodes(old(nodeMap.Snapshot()), txn)
    ensures payerShort == PayerShort(txn)
  {
    ghost var tab0 := nodeMap.Snapshot();
    var riskPct := RiskPct(txn.risk_score);
    var txColor, txVal := TransactionStyle(txn.risk_score);
    var _ := nodeMap.GetOrCreateNode(txn.txn_id, txn.txn_id, TRANSACTION, NodeOpts(Some(riskPct), Some(txVal), Some(txColor)));
    payerShort := Prefix(txn.payer, 12);
    var _ := nodeMap.GetOrCreateNode("P-" + payerShort, payerShort, USER, NO_OPTS);
    var _ := nodeMap.GetOrCreateNode("M-" + txn.merchant, txn.merchant, MERCHANT,
                                     NodeOpts(if txn.is_flagged then Some(riskPct) else None, None, None));
    var _ := nodeMap.GetOrCreateNode("I-" + txn.issuer, txn.issuer, ISSUER, NO_OPTS);
    var _ := nodeMap.GetOrCreateNode("C-" + txn.country, txn.country, DEVICE, NO_OPTS);
    AddNodesUnfold(tab0, txn);
  }

  /** The four `links.push` calls for one transaction: ownership, the
      payment to the merchant (with the amount), the issuer leg and the
      location. */
  method PushTransactionLinks(links0: seq<GraphLink>, txn: Transaction, payerShort: string) returns (links: seq<GraphLink>)
    requires payerShort == PayerShort(txn)
    ensures links == links0 + TxnLinks(txn)
  {
    var own := GraphLink("P-" + payerShort, txn.txn_id, "L-own-" + txn.txn_id, OWNERSHIP, None, None, txn.timestamp);
    links := links0 + [own];
    var pay := GraphLink(txn.txn_id, "M-" + txn.merchant, "L-pay-" + txn.txn_id, PAYMENT,
                         Some(txn.amount_idr), Some("IDR"), txn.timestamp);
    links := links + [pay];
    var iss := GraphLink(txn.txn_id, "I-" + txn.issuer, "L-iss-" + txn.txn_id, PAYMENT, None, None, txn.timestamp);
    links := links + [iss];
    var geo := GraphLink("C-" + txn.country, "P-" + payerShort, "L-geo-" + txn.txn_id, LOCATION, None, None, txn.timestamp);
    links := links + [geo];
    assert [own, pay, iss, geo] == TxnLinks(txn);
    PushFour(links0, own, pay, iss, geo);
  }

  /** `buildGraphFromTransactions`: one pass over the transactions, filling
      the node map and the link list. */
  method BuildGraphFromTransactions(txns: seq<Transaction>) returns (g: GraphData)
    ensures g == Build(txns)
  {
    var nodeMap := new NodeMap();
    var links: seq<GraphLink> := [];
    var i := 0;
    assert txns[..0] == [];
    while i < |txns|
      invariant 0 <= i <= |txns|
      invariant nodeMap.Snapshot() == TableFrom(txns[..i])
      invariant links == LinksFrom(txns[..i])
    {
      var txn := txns[i];
      var payerShort := AddTransactionNodes(nodeMap, txn);
      links := PushTransactionLinks(links, txn, payerShort);
      FoldStep(txns, i);
      i := i + 1;
    }
    assert txns[..|txns|] == txns;
    var nodes := nodeMap.Values();
    g := GraphData(nodes, links);
  }

  // ------------------------------------------------------------ properties

  /** The shape of every built graph: four links per transaction, one node
      per distinct id, every link between two nodes, and no isolated node;
      no transactions give the empty graph. */
  lemma BuildShape(txns: seq<Transaction>)
    ensures var g := Build(txns);
      |g.links| == 4 * |txns|
      && (forall i, j :: 0 <= i < j < |g.nodes| ==> g.nodes[i].id != g.nodes[j].id)
      && (forall k :: 0 <= k < |g.links| ==> HasNode(g, g.links[k].source) && HasNode(g, g.links[k].target))
      && (forall j :: 0 <= j < |g.nodes| ==> Touches(g.links, g.nodes[j].id))
      && (txns == [] ==> g == EMPTY_GRAPH)
  {
    LinksLength(txns);
    NodeIdsUnique(txns);
    LinksReferToNodes(txns);
    NoIsolatedNodes(txns);
  }

  /** One more transaction extends both folds by its contribution. */
  lemma FoldStep(txns: seq<Transaction>, i: nat)
    requires i < |txns|
    ensures TableFrom(txns[..i + 1]) == AddNodes(TableFrom(txns[..i]), txns[i])
    ensures LinksFrom(txns[..i + 1]) == LinksFrom(txns[..i]) + TxnLinks(txns[i])
  {
    assert txns[..i + 1][..i] == txns[..i];
  }

  /** Making the first call of a run, and what remains. */
  lemma ApplyFirst(tab: NodeTable, calls: seq<NodeCall>) returns (next: NodeTable)
    requires tab.Valid() && |calls| > 0
    ensures next == Upsert(tab, calls[0].id, calls[0].name, calls[0].ty, calls[0].opts)
    ensures next.Valid() && ApplyCalls(tab, calls) == ApplyCalls(next, calls[1..])
  {
    next := Upsert(tab, calls[0].id, calls[0].name, calls[0].ty, calls[0].opts);
  }

  /** The five calls of one transaction, written out. */
  lemma AddNodesUnfold(tab: NodeTable, t: Transaction)
    requires tab.Valid()
    ensures AddNodes(tab, t) ==
      var t1 := Upsert(tab, t.txn_id, t.txn_id, TRANSACTION, TxnOpts(t));
      var t2 := Upsert(t1, PayerId(t), PayerShort(t), USER, NO_OPTS);
      var t3 := Upsert(t2, MerchantId(t), t.merchant, MERCHANT, MerchantOpts(t));
      var t4 := Upsert(t3, IssuerId(t), t.issuer, ISSUER, NO_OPTS);
      Upsert(t4, CountryId(t), t.country, DEVICE, NO_OPTS)
  {
    var cs := NodeCalls(t);
    var t1 := ApplyFirst(tab, cs);
    var t2 := ApplyFirst(t1, cs[1..]);
    var t3 := ApplyFirst(t2, cs[1..][1..]);
    var t4 := ApplyFirst(t3, cs[1..][1..][1..]);
    var t5 := ApplyFirst(t4, cs[1..][1..][1..][1..]);
    assert cs[1..][1..][1..][1..][1..] == [];
  }

  predicate HasNode(g: GraphData, id: string) {
    exists i :: 0 <= i < |g.nodes| && g.nodes[i].id == id
  }

  /** The ids touched by a list of transactions. */
  function AllIds(txns: seq<Transaction>): set<string> {
    if |txns| == 0 then {} else AllIds(txns[..|txns| - 1]) + DerivedIds(txns[|txns| - 1])
  }

  /** Four links per transaction. */
  lemma {:induction false} LinksLength(txns: seq<Transaction>)
    ensures |LinksFrom(txns)| == 4 * |txns|
  {
    if |txns| > 0 {
      LinksLength(txns[..|txns| - 1]);
    }
  }

  /** Transaction `i` contributes links `4i` to `4i + 3`, in the fixed order
      ownership, payment, issuer, location. */
  lemma {:induction false} LinkAt(txns: seq<Transaction>, i: nat, k: nat)
    requires i < |txns| && k < 4
    ensures |LinksFrom(txns)| == 4 * |txns|
    ensures LinksFrom(txns)[4 * i + k] == TxnLinks(txns[i])[k]
  {
    LinksLength(txns);
    if i < |txns| - 1 {
      LinkAt(txns[..|txns| - 1], i, k);
    }
  }

  /** Every link comes from the transaction at a quarter of its position. */
  lemma LinkOrigin(txns: seq<Transaction>, k: nat)
    requires k < |LinksFrom(txns)|
    ensures k / 4 < |txns| && LinksFrom(txns)[k] == TxnLinks(txns[k / 4])[k % 4]
  {
    LinksLength(txns);
    LinkAt(txns, k / 4, k % 4);
  }

  /** The map's keys are exactly the ids the transactions derive. */
  lemma {:induction false} KeysAreDerivedIds(txns: seq<Transaction>)
    ensures forall x :: x in TableFrom(txns).entries <==> x in AllIds(txns)
  {
    if |txns| > 0 {
      KeysAreDerivedIds(txns[..|txns| - 1]);
      AddNodesKeys(TableFrom(txns[..|txns| - 1]), txns[|txns| - 1]);
    }
  }

  /** Every node appears once: no two output nodes share an id. */
  lemma NodeIdsUnique(txns: seq<Transaction>)
    ensures forall i, j :: 0 <= i < j < |Build(txns).nodes| ==> Build(txns).nodes[i].id != Build(txns).nodes[j].id
  {
    var tab := TableFrom(txns);
    assert Build(txns).nodes == NodesOf(tab);
  }

  /** The node ids are exactly the transaction, payer, merchant, issuer and
      country ids the transactions derive. */
  lemma NodeIdsAreDerived(txns: seq<Transaction>)
    ensures forall x :: HasNode(Build(txns), x) <==> x in AllIds(txns)
  {
    KeysAreDerivedIds(txns);
    forall x ensures HasNode(Build(txns), x) <==> x in AllIds(txns) {
      NodeIdIsKey(TableFrom(txns), x);
    }
  }

  /** The nodes listed from a well-formed map have exactly its keys as ids. */
  lemma NodeIdIsKey(tab: NodeTable, x: string)
    requires tab.Valid()
    ensures HasNode(GraphData(NodesOf(tab), []), x) <==> x in tab.entries
  {
    var nodes := NodesOf(tab);
    if x in tab.entries {
      assert x in tab.order;
      var i :| 0 <= i < |tab.order| && tab.order[i] == x;
      assert nodes[i].id == x;
    }
    if HasNode(GraphData(nodes, []), x) {
      var i :| 0 <= i < |nodes| && nodes[i].id == x;
      assert tab.order[i] in tab.entries;
    }
  }

  /** An id derived from transaction `i` is in `AllIds`. */
  lemma {:induction false} DerivedInAll(txns: seq<Transaction>, i: nat)
    requires i < |txns|
    ensures DerivedIds(txns[i]) <= AllIds(txns)
  {
    if i < |txns| - 1 {
      DerivedInAll(txns[..|txns| - 1], i);
    }
  }

  /** An id in `AllIds` comes from some transaction. */
  lemma {:induction false} AllFromSome(txns: seq<Transaction>, x: string)
    requires x in AllIds(txns)
    ensures exists i :: 0 <= i < |txns| && x in DerivedIds(txns[i])
  {
    if x !in DerivedIds(txns[|txns| - 1]) {
      AllFromSome(txns[..|txns| - 1], x);
      var i :| 0 <= i < |txns| - 1 && x in DerivedIds(txns[..|txns| - 1][i]);
      assert txns[i] == txns[..|txns| - 1][i];
    }
  }

  /** Both ends of every link are ids the transactions derive. */
  lemma LinkEndsDerived(txns: seq<Transaction>, k: nat)
    requires k < |LinksFrom(txns)|
    ensures LinksFrom(txns)[k].source in AllIds(txns) && LinksFrom(txns)[k].target in AllIds(txns)
  {
    LinkOrigin(txns, k);
    DerivedInAll(txns, k / 4);
  }

  /** Every link joins two nodes of the graph: no endpoint dangles. */
  lemma LinksReferToNodes(txns: seq<Transaction>)
    ensures forall k :: 0 <= k < |Build(txns).links| ==>
      HasNode(Build(txns), Build(txns).links[k].source) && HasNode(Build(txns), Build(txns).links[k].target)
  {
    var g := Build(txns);
    assert g.links == LinksFrom(txns);
    NodeIdsAreDerived(txns);
    forall k | 0 <= k < |g.links| ensures HasNode(g, g.links[k].source) && HasNode(g, g.links[k].target) {
      LinkEndsDerived(txns, k);
    }
  }

  /** `x` is the source or target of one of `links`. */
  predicate Touches(links: seq<GraphLink>, x: string) {
    exists k :: 0 <= k < |links| && (links[k].source == x || links[k].target == x)
  }

  /** A link that starts or ends at `x` witnesses `Touches`. */
  lemma TouchedBy(links: seq<GraphLink>, k: nat, x: string)
    requires k < |links| && (links[k].source == x || links[k].target == x)
    ensures Touches(links, x)
  {
  }

  /** Each id a transaction derives is an end of one of its own four links. */
  lemma TxnLinkTouching(t: Transaction, x: string) returns (r: nat)
    requires x in DerivedIds(t)
    ensures r < 4 && (TxnLinks(t)[r].source == x || TxnLinks(t)[r].target == x)
  {
    if x == t.txn_id || x == PayerId(t) {
      r := 0;
    } else if x == MerchantId(t) {
      r := 1;
    } else if x == IssuerId(t) {
      r := 2;
    } else {
      r := 3;
    }
  }

  /** Each id a transaction derives is an end of some link of the graph. */
  lemma DerivedIdTouched(txns: seq<Transaction>, i: nat, x: string)
    requires i < |txns| && x in DerivedIds(txns[i])
    ensures Touches(LinksFrom(txns), x)
  {
    var r := TxnLinkTouching(txns[i], x);
    LinkAt(txns, i, r);
    TouchedBy(LinksFrom(txns), 4 * i + r, x);
  }

  /** Every node is an end of some link: the graph has no isolated node. */
  lemma NoIsolatedNodes(txns: seq<Transaction>)
    ensures forall j :: 0 <= j < |Build(txns).nodes| ==> Touches(Build(txns).links, Build(txns).nodes[j].id)
  {
    var g := Build(txns);
    assert g.links == LinksFrom(txns);
    NodeIdsAreDerived(txns);
    forall j | 0 <= j < |g.nodes| ensures Touches(g.links, g.nodes[j].id) {
      var x := g.nodes[j].id;
      assert HasNode(g, x);
      AllFromSome(txns, x);
      var i :| 0 <= i < |txns| && x in DerivedIds(txns[i]);
      DerivedIdTouched(txns, i, x);
    }
  }

  /** The four link-id prefixes: equally long, and told apart by their third
      character. */
  function LinkPrefix(k: nat): (p: string)
    requires k < 4
    ensures |p| == 6
  {
    ["L-own-", "L-pay-", "L-iss-", "L-geo-"][k]
  }

  /** Link ids never clash as long as transaction ids are distinct. */
  lemma LinkIdsUnique(txns: seq<Transaction>, a: nat, b: nat)
    requires forall i, j :: 0 <= i < j < |txns| ==> txns[i].txn_id != txns[j].txn_id
    requires a < b < |LinksFrom(txns)|
    ensures LinksFrom(txns)[a].id != LinksFrom(txns)[b].id
  {
    LinkOrigin(txns, a);
    LinkOrigin(txns, b);
    var ia, ra, ib, rb := a / 4, a % 4, b / 4, b % 4;
    var ida, idb := LinksFrom(txns)[a].id, LinksFrom(txns)[b].id;
    assert ida == LinkPrefix(ra) + txns[ia].txn_id;
    assert idb == LinkPrefix(rb) + txns[ib].txn_id;
    if ra != rb {
      assert ida[2] == LinkPrefix(ra)[2] != LinkPrefix(rb)[2] == idb[2];
    } else {
      assert ia != ib;
      assert ida[6..] == txns[ia].txn_id != txns[ib].txn_id == idb[6..];
    }
  }

  /** Only the merchant payment link carries an amount, always the
      transaction's IDR amount with currency IDR. */
  lemma OnlyPaymentLinkHasAmount(txns: seq<Transaction>, k: nat)
    requires k < 4 * |txns|
    ensures k < |LinksFrom(txns)|
    ensures var l := LinksFrom(txns)[k];
      (l.amount.Some? <==> k % 4 == 1) && (l.currency.Some? <==> k % 4 == 1)
      && (k % 4 == 1 ==> l.amount == Some(txns[k / 4].amount_idr) && l.currency == Some("IDR"))
  {
    LinksLength(txns);
    LinkOrigin(txns, k);
  }

  // ------------------------------------------- growth and the risk score

  /** `b` holds every node of `a` with the same identity, and `a`'s
      insertion order is a prefix of `b`'s. */
  ghost predicate Extends(a: NodeTable, b: NodeTable) {
    (forall k :: k in a.entries ==> k in b.entries && SameIdentity(a.entries[k], b.entries[k]))
    && |a.order| <= |b.order| && b.order[..|a.order|] == a.order
  }

  lemma ExtendsTrans(a: NodeTable, b: NodeTable, c: NodeTable)
    requires Extends(a, b) && Extends(b, c)
    ensures Extends(a, c)
  {
    assert c.order[..|a.order|] == c.order[..|b.order|][..|a.order|];
  }

  lemma UpsertExtends(t: NodeTable, id: string, name: string, ty: NodeType, opts: NodeOpts)
    requires t.Valid()
    ensures Extends(t, Upsert(t, id, name, ty, opts))
  {
    UpsertEffect(t, id, name, ty, opts);
    var r := Upsert(t, id, name, ty, opts);
    if id !in t.entries {
      assert r.order[..|t.order|] == t.order;
    }
  }

  /** A run of calls keeps every earlier node's identity and extends the
      insertion order. */
  lemma {:induction false} ApplyExtends(tab: NodeTable, calls: seq<NodeCall>)
    requires tab.Valid()
    decreases |calls|
    ensures Extends(tab, ApplyCalls(tab, calls))
  {
    if |calls| > 0 {
      var c := calls[0];
      var next := Upsert(tab, c.id, c.name, c.ty, c.opts);
      UpsertExtends(tab, c.id, c.name, c.ty, c.opts);
      ApplyExtends(next, calls[1..]);
      ExtendsTrans(tab, next, ApplyCalls(tab, calls));
    } else {
      assert tab.order[..|tab.order|] == tab.order;
    }
  }

  /** Processing more transactions keeps every earlier node, with the same
      name, type, size and colour, and keeps the earlier insertion order as a
      prefix. */
  lemma {:induction false} BuildExtends(txns: seq<Transaction>, n: nat)
    requires n <= |txns|
    ensures Extends(TableFrom(txns[..n]), TableFrom(txns))
  {
    if n < |txns| {
      var init := txns[..|txns| - 1];
      assert init[..n] == txns[..n];
      BuildExtends(init, n);
      ApplyExtends(TableFrom(init), NodeCalls(txns[|txns| - 1]));
      ExtendsTrans(TableFrom(txns[..n]), TableFrom(init), TableFrom(txns));
    } else {
      assert txns[..n] == txns;
    }
  }

  /** The risk score stored under `x`, absent when there is no node `x`. */
  function RiskOf(t: NodeTable, x: string): Option<int> {
    if x in t.entries then t.entries[x].riskScore else None
  }

  /** The scores offered to node `x` by one transaction: its own node's
      percentage, and the merchant's when the transaction is flagged. */
  function TxnOffers(t: Transaction, x: string): seq<int> {
    (if x == t.txn_id then [RiskPct(t.risk_score)] else [])
    + (if t.is_flagged && x == MerchantId(t) then [RiskPct(t.risk_score)] else [])
  }

  /** Every score offered to `x`, in call order. */
  function Offers(txns: seq<Transaction>, x: string): seq<int> {
    if |txns| == 0 then [] else Offers(txns[..|txns| - 1], x) + TxnOffers(txns[|txns| - 1], x)
  }

  /** The scores a run of calls offers to node `x`, in call order. */
  function CallOffers(calls: seq<NodeCall>, x: string): seq<int> {
    if |calls| == 0 then []
    else
      (if calls[0].id == x && calls[0].opts.riskScore.Some? then [calls[0].opts.riskScore.value] else [])
      + CallOffers(calls[1..], x)
  }

  lemma PushFour<T>(s: seq<T>, a: T, b: T, c: T, d: T)
    ensures s + [a] + [b] + [c] + [d] == s + [a, b, c, d]
  {
  }

  lemma ConcatAssoc<T>(a: seq<T>, b: seq<T>, c: seq<T>)
    ensures a + b + c == a + (b + c)
  {
  }

  /** The largest of `offers`, or absent when nothing was offered. */
  function MaxOffer(offers: seq<int>): Option<int> {
    if |offers| == 0 then None
    else
      var prev := MaxOffer(offers[..|offers| - 1]);
      var v := offers[|offers| - 1];
      Some(if prev.None? then v else Max(prev.value, v))
  }

  /** `MaxOffer` is absent exactly for no offers, and otherwise is one of the
      offers and at least every offer. */
  lemma {:induction false} MaxOfferIsMax(offers: seq<int>)
    ensures MaxOffer(offers).None? <==> offers == []
    ensures MaxOffer(offers).Some? ==>
      MaxOffer(offers).value in offers && forall o :: o in offers ==> o <= MaxOffer(offers).value
  {
    if |offers| > 0 {
      var init := offers[..|offers| - 1];
      MaxOfferIsMax(init);
      assert offers == init + [offers[|offers| - 1]];
    }
  }

  /** One `getOrCreateNode` call with a non-negative offer (or none) extends
      every node's offers by what the call offers it, and its score stays the
      largest offer. */
  lemma UpsertKeepsMax(t: NodeTable, c: NodeCall, x: string, offers: seq<int>)
    requires t.Valid()
    requires RiskOf(t, x) == MaxOffer(offers)
    requires c.opts.riskScore.Some? ==> c.opts.riskScore.value >= 0
    ensures RiskOf(Upsert(t, c.id, c.name, c.ty, c.opts), x) == MaxOffer(offers + CallOffers([c], x))
  {
    assert [c][1..] == [];
    if c.id == x && c.opts.riskScore.Some? {
      assert (offers + [c.opts.riskScore.value])[..|offers|] == offers;
    } else {
      assert offers + [] == offers;
    }
  }

  /** A run of calls with non-negative offers keeps every node's score the
      largest of what it was offered. */
  lemma {:induction false} ApplyKeepsMax(tab: NodeTable, calls: seq<NodeCall>, x: string, offers: seq<int>)
    requires tab.Valid()
    requires RiskOf(tab, x) == MaxOffer(offers)
    requires forall i :: 0 <= i < |calls| && calls[i].opts.riskScore.Some? ==> calls[i].opts.riskScore.value >= 0
    ensures RiskOf(ApplyCalls(tab, calls), x) == MaxOffer(offers + CallOffers(calls, x))
    decreases |calls|
  {
    if |calls| == 0 {
      assert offers + [] == offers;
    } else {
      var c := calls[0];
      var rest := calls[1..];
      var next := Upsert(tab, c.id, c.name, c.ty, c.opts);
      var first := CallOffers([c], x);
      assert ApplyCalls(tab, calls) == ApplyCalls(next, rest);
      UpsertKeepsMax(tab, c, x, offers);
      assert forall i :: 0 <= i < |rest| && rest[i].opts.riskScore.Some? ==> rest[i].opts.riskScore.value >= 0 by {
        forall i | 0 <= i < |rest| && rest[i].opts.riskScore.Some? ensures rest[i].opts.riskScore.value >= 0 {
          assert rest[i] == calls[i + 1];
        }
      }
      ApplyKeepsMax(next, rest, x, offers + first);
      var head := if c.id == x && c.opts.riskScore.Some? then [c.opts.riskScore.value] else [];
      assert first == head by {
        assert [c][1..] == [];
        assert head + [] == head;
      }
      assert CallOffers(calls, x) == head + CallOffers(rest, x);
      ConcatAssoc(offers, head, CallOffers(rest, x));
    }
  }

  /** The calls of one transaction offer exactly `TxnOffers`. */
  lemma NodeCallsOffer(t: Transaction, x: string)
    ensures CallOffers(NodeCalls(t), x) == TxnOffers(t, x)
  {
    var cs := NodeCalls(t);
    assert CallOffers(cs[4..], x) == [] by {
      assert cs[4..][1..] == [];
    }
    assert CallOffers(cs[3..], x) == [] by {
      assert cs[3..][1..] == cs[4..];
    }
    assert CallOffers(cs[2..], x) == (if t.is_flagged && x == MerchantId(t) then [RiskPct(t.risk_score)] else []) by {
      assert cs[2..][1..] == cs[3..];
    }
    assert CallOffers(cs[1..], x) == CallOffers(cs[2..], x) by {
      assert cs[1..][1..] == cs[2..];
    }
  }

  /** A transaction with a non-negative score offers non-negative percentages. */
  lemma NodeCallsNonNegative(t: Transaction)
    requires t.risk_score >= 0.0
    ensures forall i :: 0 <= i < |NodeCalls(t)| && NodeCalls(t)[i].opts.riskScore.Some? ==> NodeCalls(t)[i].opts.riskScore.value >= 0
  {
    assert RiskPct(t.risk_score) >= 0;
  }

  /** With scores in the API's 0..1 range, the score on every node is the
      largest percentage offered to it: its own percentage for a transaction
      node, the flagged transactions' percentages for a merchant node, and
      absent for a node that was never offered one (every payer, issuer and
      country node, and every merchant without a flagged transaction). */
  lemma {:induction false} RiskIsMaxOffered(txns: seq<Transaction>, x: string)
    requires forall i :: 0 <= i < |txns| ==> txns[i].risk_score >= 0.0
    ensures RiskOf(TableFrom(txns), x) == MaxOffer(Offers(txns, x))
  {
    if |txns| > 0 {
      var init := txns[..|txns| - 1];
      assert forall i :: 0 <= i < |init| ==> init[i].risk_score >= 0.0 by {
        forall i | 0 <= i < |init| ensures init[i].risk_score >= 0.0 {
          assert init[i] == txns[i];
        }
      }
      RiskIsMaxOffered(init, x);
      var t := txns[|txns| - 1];
      assert TableFrom(txns) == ApplyCalls(TableFrom(init), NodeCalls(t));
      assert Offers(txns, x) == Offers(init, x) + TxnOffers(t, x);
      NodeCallsOffer(t, x);
      NodeCallsNonNegative(t);
      ApplyKeepsMax(TableFrom(init), NodeCalls(t), x, Offers(init, x));
    }
  }

  /** A merchant whose id no transaction reuses gets a score exactly when
      one of its transactions was flagged. */
  lemma {:induction false} MerchantRiskOnlyWhenFlagged(txns: seq<Transaction>, x: string)
    requires forall i :: 0 <= i < |txns| ==> txns[i].txn_id != x
    ensures Offers(txns, x) != [] <==> exists i :: 0 <= i < |txns| && txns[i].is_flagged && MerchantId(txns[i]) == x
  {
    if |txns| > 0 {
      var init, last := txns[..|txns| - 1], txns[|txns| - 1];
      MerchantRiskOnlyWhenFlagged(init, x);
      assert Offers(txns, x) == Offers(init, x) + TxnOffers(last, x);
      assert TxnOffers(last, x) != [] <==> last.is_flagged && MerchantId(last) == x;
      if exists i :: 0 <= i < |init| && init[i].is_flagged && MerchantId(init[i]) == x {
        var i :| 0 <= i < |init| && init[i].is_flagged && MerchantId(init[i]) == x;
        assert txns[i] == init[i];
      }
      if exists i :: 0 <= i < |txns| && txns[i].is_flagged && MerchantId(txns[i]) == x {
        var i :| 0 <= i < |txns| && txns[i].is_flagged && MerchantId(txns[i]) == x;
        if i < |init| {
          assert init[i] == txns[i];
        }
      }
    }
  }
}
