/** The dashboard's transaction detail: the merchant-risk colours and bar,
    which signal rows are highlighted, and the three review buttons with
    the AI recommendation tag on Block. */
module DetailModal {
  import opened Base
  import opened Risk
  import opened DashboardTypes

  /** `getRiskColor`: the text colour of the merchant risk figure. */
  function RiskColor(score: real): (c: string)
    ensures c == "text-red-400" <==> TierOf(score) == High
    ensures c == "text-orange-400" <==> TierOf(score) == Medium
    ensures c == "text-green-400" <==> TierOf(score) == Low
  {
    if score >= 0.7 then "text-red-400" else if score >= 0.4 then "text-orange-400" else "text-green-400"
  }

  /** `getRiskBg`: the fill colour of the merchant risk bar. */
  function RiskBg(score: real): (c: string)
    ensures c == "bg-red-500" <==> TierOf(score) == High
    ensures c == "bg-orange-500" <==> TierOf(score) == Medium
    ensures c == "bg-green-500" <==> TierOf(score) == Low
  {
    if score >= 0.7 then "bg-red-500" else if score >= 0.4 then "bg-orange-500" else "bg-green-500"
  }

  /** The colour word shared by a text colour and a bar fill. */
  function Hue(c: string): string {
    if c == "text-red-400" || c == "bg-red-500" then "red"
    else if c == "text-orange-400" || c == "bg-orange-500" then "orange"
    else "green"
  }

  /** The figure and its bar always agree on the colour. */
  lemma RiskColourAndBarAgree(score: real)
    ensures Hue(RiskColor(score)) == Hue(RiskBg(score))
  {
  }

  /** The bar's width in percent: the score scaled to 100, capped at 100. */
  function BarWidth(score: real): (w: real)
    ensures w <= 100.0
    ensures score <= 1.0 ==> w == score * 100.0
    ensures score >= 1.0 ==> w == 100.0
  {
    if score * 100.0 < 100.0 then score * 100.0 else 100.0
  }

  /** A riskier merchant's bar is never shorter. */
  lemma BarWidthMonotone(x: real, y: real)
    requires x <= y
    ensures BarWidth(x) <= BarWidth(y)
  {
  }

  /** The "no previous transaction" sentinel for the time since the last one. */
  const NO_PREVIOUS: int := 99999

  /** The time-since-last row shows a dash rather than seconds. */
  predicate TimeSinceDashed(txn: DashTransaction) {
    txn.timeSinceLastTxnSec >= NO_PREVIOUS
  }

  /** The time-since-last row is highlighted: a real gap under two minutes. */
  predicate TimeSinceHighlighted(txn: DashTransaction) {
    txn.timeSinceLastTxnSec < 120 && txn.timeSinceLastTxnSec < NO_PREVIOUS
  }

  /** A dashed row is never highlighted, and below the sentinel the
      highlight is exactly the two-minute test. */
  lemma TimeSinceRow(txn: DashTransaction)
    ensures TimeSinceDashed(txn) ==> !TimeSinceHighlighted(txn)
    ensures TimeSinceHighlighted(txn) <==> txn.timeSinceLastTxnSec < 120
  {
  }

  /** The highlighted signal rows of the detail, in display order. */
  datatype Highlights = Highlights(newDevice: bool, sharedDevice: bool, txnCount: bool,
                                   velocity: bool, timeSince: bool, countrySwitch: bool)

  function HighlightsOf(txn: DashTransaction): (h: Highlights)
    ensures h.txnCount <==> txn.userTxnCount24h >= 5
    ensures h.velocity <==> txn.txnVelocity10m >= 2
    ensures h.countrySwitch <==> txn.countrySwitch24h >= 2
    ensures h.newDevice == txn.isNewDevice && h.sharedDevice == txn.sharedDevice24h
    ensures h.timeSince <==> TimeSinceHighlighted(txn)
  {
    Highlights(txn.isNewDevice, txn.sharedDevice24h, txn.userTxnCount24h >= 5,
               txn.txnVelocity10m >= 2, TimeSinceHighlighted(txn), txn.countrySwitch24h >= 2)
  }

  /** Raising a counter never removes its highlight. */
  lemma HighlightsMonotone(txn: DashTransaction, count: int, velocity: int, switches: int)
    requires count >= txn.userTxnCount24h && velocity >= txn.txnVelocity10m && switches >= txn.countrySwitch24h
    ensures var h := HighlightsOf(txn);
            var h' := HighlightsOf(txn.(userTxnCount24h := count, txnVelocity10m := velocity, countrySwitch24h := switches));
            (h.txnCount ==> h'.txnCount) && (h.velocity ==> h'.velocity) && (h.countrySwitch ==> h'.countrySwitch)
  {
  }

  /** The three review buttons, by the status each sets. */
  datatype Action = Approve | Flag | Block

  function Target(a: Action): TransactionStatus {
    match a
    case Approve => APPROVED
    case Flag => FLAGGED
    case Block => BLOCKED
  }

  /** A button is disabled when the transaction already has its status. */
  predicate ActionDisabled(txn: DashTransaction, a: Action) {
    txn.status == Target(a)
  }

  /** A click: the status-change request `(txnId, target)`,
      or nothing from a disabled button. */
  function Click(txn: DashTransaction, a: Action): (r: Option<(string, TransactionStatus)>)
    ensures r.None? <==> ActionDisabled(txn, a)
    ensures r.Some? ==> r.value == (txn.txnId, Target(a)) && r.value.1 != txn.status
  {
    if ActionDisabled(txn, a) then None else Some((txn.txnId, Target(a)))
  }

  /** A pending transaction can take any of the three verdicts; any other
      status leaves exactly the two buttons that would change it. */
  lemma ButtonsEnabled(txn: DashTransaction)
    ensures txn.status == PENDING ==> forall a: Action :: !ActionDisabled(txn, a)
    ensures txn.status != PENDING ==> exists a: Action :: ActionDisabled(txn, a)
    ensures forall a: Action, b: Action :: ActionDisabled(txn, a) && ActionDisabled(txn, b) ==> a == b
  {
    if txn.status == APPROVED {
      assert ActionDisabled(txn, Approve);
    } else if txn.status == FLAGGED {
      assert ActionDisabled(txn, Flag);
    } else if txn.status == BLOCKED {
      assert ActionDisabled(txn, Block);
    }
  }

  /** A high-risk merchant: score at least 0.7. */
  predicate IsHighRisk(txn: DashTransaction) {
    txn.merchantRiskScore >= 0.7
  }

  /** The AI REC tag on Block: a high-risk merchant and not yet blocked. */
  predicate AiRecommendsBlock(txn: DashTransaction) {
    IsHighRisk(txn) && txn.status != BLOCKED
  }

  /** The tag appears exactly when Block is enabled for a high-risk
      merchant, i.e. when the merchant's risk figure is red and Block
      would change something. */
  lemma AiRecMeansBlockEnabled(txn: DashTransaction)
    ensures AiRecommendsBlock(txn) <==> Click(txn, Block).Some? && RiskColor(txn.merchantRiskScore) == "text-red-400"
  {
  }
}
