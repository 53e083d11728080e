/** The dashboard's transaction table: the risk, status and fraud-type
    badges of a row, the fraud-type caption, the seven-button pagination
    window with its previous/next controls, and the selected row whose
    detail modal is open. */
module TransactionTable {
  import opened Base
  import opened Text
  import opened Risk
  import opened ApiTypes

  // ------------------------------------------------------------- badges

  /** The four badge palettes the table draws with. */
  const RED: string := "bg-red-500/10 text-red-400 border-red-500/30"
  const ORANGE: string := "bg-orange-500/10 text-orange-400 border-orange-500/30"
  const GREEN: string := "bg-green-500/10 text-green-400 border-green-500/30"
  const GRAY: string := "bg-gray-500/5 text-gray-500 border-gray-500/20"

  /** `getRiskBadge`: red, orange or green by risk tier. */
  function RiskBadge(score: real): (style: string)
    ensures style == RED <==> TierOf(score) == High
    ensures style == ORANGE <==> TierOf(score) == Medium
    ensures style == GREEN <==> TierOf(score) == Low
  {
    if score >= 0.7 then RED
    else if score >= 0.4 then ORANGE
    else GREEN
  }

  /** Two scores share a risk badge exactly when they share a tier, and a
      higher score never shows a calmer badge. */
  lemma RiskBadgeByTier(x: real, y: real)
    ensures RiskBadge(x) == RiskBadge(y) <==> TierOf(x) == TierOf(y)
    ensures x <= y && RiskBadge(x) == RED ==> RiskBadge(y) == RED
  {
    TierMonotone(x, x);
    if x <= y {
      TierMonotone(x, y);
    }
  }

  /** What the status column can say. */
  datatype StatusKind = Confirmed | Cleared | Flagged | Normal

  datatype StatusBadge = StatusBadge(kind: StatusKind, caption: string, style: string)

  /** `getStatusBadge`: the analyst's verdict first (confirmed fraud, then
      false positive), then the model's flag, else normal; a confirmed
      fraud wears the high-risk palette and a cleared one the low-risk. */
  function GetStatusBadge(txn: Transaction): (b: StatusBadge)
    ensures b.kind == Confirmed <==> txn.review_status == Some("confirmed_fraud")
    ensures b.kind == Cleared <==> txn.review_status == Some("false_positive")
    ensures b.kind == Flagged <==> txn.review_status != Some("confirmed_fraud")
                                   && txn.review_status != Some("false_positive") && txn.is_flagged
    ensures b.style == match b.kind case Confirmed => RED case Cleared => GREEN case Flagged => ORANGE case Normal => GRAY
  {
    if txn.review_status == Some("confirmed_fraud") then StatusBadge(Confirmed, "⛔ CONFIRMED", RED)
    else if txn.review_status == Some("false_positive") then StatusBadge(Cleared, "✅ CLEARED", GREEN)
    else if txn.is_flagged then StatusBadge(Flagged, "⚠ FLAGGED", ORANGE)
    else StatusBadge(Normal, "NORMAL", GRAY)
  }

  /** A review verdict outranks the flag: a reviewed row never shows the
      flag or normal badge, whatever `is_flagged` says. */
  lemma ReviewOutranksFlag(txn: Transaction, flagged: bool)
    requires txn.review_status == Some("confirmed_fraud") || txn.review_status == Some("false_positive")
    ensures GetStatusBadge(txn) == GetStatusBadge(txn.(is_flagged := flagged))
    ensures GetStatusBadge(txn).kind != Flagged && GetStatusBadge(txn).kind != Normal
  {
  }

  /** The five fraud types the table knows a colour for. */
  predicate KnownFraudType(t: string) {
    t == "velocity_attack" || t == "card_testing" || t == "collusion_ring"
    || t == "geo_anomaly" || t == "amount_anomaly"
  }

  /** `getFraudTypeBadge`: nothing for an absent or empty type, a fixed
      colour per known type, gray for any other. */
  function FraudTypeBadge(t: Option<string>): (style: string)
    ensures t.None? || t.value == "" ==> style == ""
    ensures t.Some? && t.value != "" && !KnownFraudType(t.value) ==> style == "text-gray-400"
    ensures t.Some? && KnownFraudType(t.value) ==> style != "" && style != "text-gray-400"
  {
    if t.None? || t.value == "" then ""
    else
      match t.value
      case "velocity_attack" => "text-purple-400"
      case "card_testing" => "text-cyan-400"
      case "collusion_ring" => "text-pink-400"
      case "geo_anomaly" => "text-amber-400"
      case "amount_anomaly" => "text-red-400"
      case _ => "text-gray-400"
  }

  /** Each known fraud type has a colour of its own: two different known
      types never share a badge, and none of them shares the fallback gray. */
  lemma FraudTypeBadgesDistinct(a: string, b: string)
    requires KnownFraudType(a) && KnownFraudType(b) && a != b
    ensures FraudTypeBadge(Some(a)) != FraudTypeBadge(Some(b))
    ensures FraudTypeBadge(Some(a)) != "text-gray-400"
  {
  }

  // ------------------------------------------------- fraud-type caption

  /** A character of the regular-expression class `\w`. */
  predicate IsWordChar(c: char) {
    'a' <= c <= 'z' || 'A' <= c <= 'Z' || '0' <= c <= '9' || c == '_'
  }

  /** `replace(/_/g, ' ')`. */
  function Unscore(s: string): (r: string)
    ensures |r| == |s|
    ensures forall i :: 0 <= i < |s| ==> r[i] == if s[i] == '_' then ' ' else s[i]
  {
    seq(|s|, i requires 0 <= i < |s| => if s[i] == '_' then ' ' else s[i])
  }

  /** Position `i` starts a word: a word character with no word character
      before it (what `\b\w` matches). */
  predicate WordStart(s: string, i: int)
    requires 0 <= i < |s|
  {
    IsWordChar(s[i]) && (i == 0 || !IsWordChar(s[i - 1]))
  }

  /** `replace(/\b\w/g, c => c.toUpperCase())`. */
  function Capitalise(s: string): (r: string)
    ensures |r| == |s|
    ensures forall i :: 0 <= i < |s| ==> r[i] == if WordStart(s, i) then UpperChar(s[i]) else s[i]
  {
    seq(|s|, i requires 0 <= i < |s| => if WordStart(s, i) then UpperChar(s[i]) else s[i])
  }

  /** `formatFraudType`: a dash for an absent or empty type; otherwise the
      type with underscores as spaces and each word's first letter upper
      case. */
  function FormatFraudType(t: Option<string>): (r: string)
    ensures t.None? || t.value == "" ==> r == "—"
    ensures t.Some? && t.value != "" ==> |r| == |t.value| && '_' !in r
    ensures t.Some? && t.value != "" ==> forall i :: 0 <= i < |r| && WordStart(Unscore(t.value), i) ==> !IsLowerAscii(r[i])
  {
    if t.None? || t.value == "" then "—"
    else
      var r := Capitalise(Unscore(t.value));
      assert forall i :: 0 <= i < |r| ==> r[i] != '_';
      r
  }

  /** Formatting changes nothing but underscores and letter case: lowered,
      the caption is the lowered type with spaces for underscores. */
  lemma FormatOnlyRecases(t: string)
    requires t != ""
    ensures Lower(FormatFraudType(Some(t))) == Lower(Unscore(t))
  {
    var u := Unscore(t);
    var r := FormatFraudType(Some(t));
    forall i | 0 <= i < |u| ensures LowerChar(r[i]) == LowerChar(u[i]) {
      if WordStart(u, i) && IsLowerAscii(u[i]) {
        assert r[i] as int == u[i] as int - 32;
      }
    }
  }

  /** Formatting a caption again changes nothing. */
  lemma FormatIdempotent(t: string)
    requires t != ""
    ensures FormatFraudType(Some(FormatFraudType(Some(t)))) == FormatFraudType(Some(t))
  {
    var u := Unscore(t);
    var r := FormatFraudType(Some(t));
    assert Unscore(r) == r;
    forall i | 0 <= i < |r| ensures WordStart(r, i) == WordStart(u, i) {
      assert IsWordChar(r[i]) == IsWordChar(u[i]);
      if i > 0 {
        assert IsWordChar(r[i - 1]) == IsWordChar(u[i - 1]);
      }
    }
  }

  // ---------------------------------------------------------- pagination

  /** The number of page buttons: `Math.min(pages, 7)`, as an array length. */
  function WindowSize(pages: int): nat {
    if pages <= 0 then 0 else Min(pages, 7)
  }

  /** The page on button `i` of the window. */
  function PageOfButton(page: int, pages: int, i: int): int {
    if pages <= 7 then i + 1
    else if page <= 4 then i + 1
    else if page >= pages - 3 then pages - 6 + i
    else page - 3 + i
  }

  /** The page buttons, left to right. */
  function PageWindow(page: int, pages: int): (w: seq<int>)
    ensures |w| == WindowSize(pages)
    ensures forall i :: 0 <= i < |w| ==> w[i] == PageOfButton(page, pages, i)
  {
    seq(WindowSize(pages), i requires 0 <= i < WindowSize(pages) => PageOfButton(page, pages, i))
  }

  /** The window is a run of consecutive pages; for a current page in range
      it stays within `1..pages` and contains the current page. */
  lemma PageWindowProperties(page: int, pages: int)
    ensures forall i :: 0 <= i < |PageWindow(page, pages)| - 1 ==> PageWindow(page, pages)[i + 1] == PageWindow(page, pages)[i] + 1
    ensures 1 <= page <= pages ==> forall i :: 0 <= i < |PageWindow(page, pages)| ==> 1 <= PageWindow(page, pages)[i] <= pages
    ensures 1 <= page <= pages ==> page in PageWindow(page, pages)
  {
    var w := PageWindow(page, pages);
    if 1 <= page <= pages {
      if pages <= 7 || page <= 4 {
        assert w[page - 1] == page;
      } else if page >= pages - 3 {
        assert w[page - pages + 6] == page;
      } else {
        assert w[3] == page;
      }
    }
  }

  /** The three windows of a long page list: the first seven pages near
      the start, the last seven near the end, else three either side. */
  lemma PageWindowCases(page: int, pages: int)
    requires pages > 7
    ensures page <= 4 ==> PageWindow(page, pages) == [1, 2, 3, 4, 5, 6, 7]
    ensures 4 < page && page >= pages - 3 ==> PageWindow(page, pages)[0] == pages - 6 && PageWindow(page, pages)[6] == pages
    ensures 4 < page < pages - 3 ==> PageWindow(page, pages)[0] == page - 3 && PageWindow(page, pages)[6] == page + 3
  {
  }

  /** The previous button's target; it is disabled on page 1. */
  function PrevTarget(page: int): int { Max(1, page - 1) }
  predicate PrevDisabled(page: int) { page == 1 }

  /** The next button's target; it is disabled on the last page. */
  function NextTarget(page: int, pages: int): int { Min(pages, page + 1) }
  predicate NextDisabled(page: int, pages: int) { page == pages }

  /** From a page in range, both buttons land in range, and an enabled
      button moves exactly one page. */
  lemma PrevNextInRange(page: int, pages: int)
    requires 1 <= page <= pages
    ensures 1 <= PrevTarget(page) <= pages && 1 <= NextTarget(page, pages) <= pages
    ensures !PrevDisabled(page) ==> PrevTarget(page) == page - 1
    ensures !NextDisabled(page, pages) ==> NextTarget(page, pages) == page + 1
    ensures PrevDisabled(page) ==> PrevTarget(page) == page
    ensures NextDisabled(page, pages) ==> NextTarget(page, pages) == page
  {
    if page == 1 {
      assert PrevTarget(page) == 1;
    } else {
      assert PrevTarget(page) == page - 1;
    }
    if page == pages {
      assert NextTarget(page, pages) == pages;
    } else {
      assert NextTarget(page, pages) == page + 1;
    }
  }

  // ------------------------------------------------------- selected row

  /** The row whose detail modal is open. */
  class Table {
    var selectedTxn: Option<Transaction>

    constructor ()
      ensures selectedTxn == None
    {
      selectedTxn := None;
    }

    /** Clicking a row opens its detail. */
    method SelectRow(txn: Transaction)
      modifies this
      ensures selectedTxn == Some(txn)
    {
      selectedTxn := Some(txn);
    }

    /** Closing the modal. */
    method CloseDetail()
      modifies this
      ensures selectedTxn == None
    {
      selectedTxn := None;
    }

    predicate DetailOpen()
      reads this
    {
      selectedTxn.Some?
    }
  }
}
