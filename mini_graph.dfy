/** The mini graph in the transaction drawer: the main graph builder run on
    a single transaction, painted with truncated labels, a glow for high
    risk and a percentage badge. */
module MiniGraph {
  import opened Base
  import opened Text
  import opened Risk
  import opened ApiTypes
  import opened GraphBuilder
  import opened NodePainter

  /** `buildGraphFromTransactions([transaction])`. */
  method MiniGraphData(transaction: Transaction) returns (g: GraphData)
    ensures g == Build([transaction])
    ensures |g.links| == 4 && 1 <= |g.nodes| <= 5
  {
    g := BuildGraphFromTransactions([transaction]);
    BuildShape([transaction]);
    MiniNodeCount(transaction);
  }

  /** One transaction yields between one and five nodes: its five derived
      ids, some of which may coincide. */
  lemma MiniNodeCount(t: Transaction)
    ensures 1 <= |Build([t]).nodes| <= 5
  {
    var tab := TableFrom([t]);
    assert [t][..0] == [];
    KeysAreDerivedIds([t]);
    assert AllIds([t]) == AllIds([]) + DerivedIds(t);
    ghost var ids := DerivedIds(t);
    assert t.txn_id in ids;
    FiveAtMost(t.txn_id, PayerId(t), MerchantId(t), IssuerId(t), CountryId(t));
    assert forall k :: k in tab.order ==> k in ids;
    OrderBound(tab.order, ids);
  }

  /** Five values make a set of at most five. */
  lemma FiveAtMost<T>(a: T, b: T, c: T, d: T, e: T)
    ensures |{a, b, c, d, e}| <= 5
  {
    var s := {a} + {b};
    assert |s| <= 2;
    s := s + {c};
    assert |s| <= 3;
    s := s + {d};
    assert |s| <= 4;
    assert {a, b, c, d, e} == s + {e};
  }

  /** A duplicate-free list drawn from a set is no longer than the set. */
  lemma {:induction false} OrderBound(order: seq<string>, ids: set<string>)
    requires forall i, j :: 0 <= i < j < |order| ==> order[i] != order[j]
    requires forall k :: k in order ==> k in ids
    ensures |order| <= |ids|
  {
    if |order| > 0 {
      var last := order[|order| - 1];
      var init := order[..|order| - 1];
      assert last !in init;
      assert forall k :: k in init ==> k in ids - {last};
      OrderBound(init, ids - {last});
    }
  }

  /** The label drawn under a node: names longer than 14 characters become
      their first 12 followed by an ellipsis. */
  method TruncateLabel(name: string) returns (shown: string)
    ensures |shown| <= 14
    ensures |name| <= 14 ==> shown == name
    ensures |name| > 14 ==> shown == name[..12] + "…" && |shown| == 13
  {
    shown := name;
    if |shown| > 14 {
      shown := Prefix(shown, 12) + "…";
    }
  }

  /** The mini painter's own border colour chain; it agrees with the main
      painter's, so the stroke is that colour at a fixed partial opacity. */
  function MiniStroke(ty: NodeType, riskScore: Option<int>): (s: string)
    ensures s == BorderColor(ty, riskScore) + "bb"
  {
    var border :=
      if ty == TRANSACTION then (if Above(riskScore, 70) then "#ef4444" else "#6b7280")
      else if ty == USER then "#3b82f6"
      else if ty == MERCHANT then "#f59e0b"
      else if ty == ISSUER then "#10b981"
      else "#8b5cf6";
    border + "bb"
  }

  /** The high-risk glow is drawn above 70. */
  predicate MiniGlow(riskScore: Option<int>) {
    Above(riskScore, 70)
  }

  /** The badge: `${riskScore}%` above 40, on red above 70, else orange. */
  function MiniBadge(riskScore: Option<int>): (b: Option<(string, string)>)
    ensures b.Some? <==> Above(riskScore, 40)
    ensures b.Some? ==> b.value.0 == IntToString(riskScore.value) + "%"
    ensures b.Some? ==> (b.value.1 == "#dc2626aa" <==> riskScore.value > 70)
  {
    if Above(riskScore, 40) then
      Some((IntToString(riskScore.value) + "%", if riskScore.value > 70 then "#dc2626aa" else "#ea580caa"))
    else None
  }

  /** A glowing node always carries a red badge, and a red badge means the
      node glows. */
  lemma GlowMeansRedBadge(riskScore: Option<int>)
    ensures MiniGlow(riskScore) <==> MiniBadge(riskScore).Some? && MiniBadge(riskScore).value.1 == "#dc2626aa"
  {
  }
}
