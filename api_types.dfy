/** The records the console receives from the fraud-scoring API. Only their
    shape matters here; fetching them is not modelled. */
module ApiTypes {
  import opened Base

  /** One explained feature of the scoring model (`XAIFeature`). */
  datatype XaiFeature = XaiFeature(feature: string, displayName: string, importance: real)

  /** A scored payment as the API returns it. `risk_score` is the model's
      probability of fraud, nominally in 0..1; nothing in the console checks
      that range. `null` fields are `None`. */
  datatype Transaction = Transaction(
    txn_id: string,
    timestamp: string,
    payer: string,
    issuer: string,
    country: string,
    merchant: string,
    city: string,
    amount_idr: real,
    amount_foreign: real,
    currency: string,
    risk_score: real,
    is_flagged: bool,
    is_fraud: bool,
    fraud_type: Option<string>,
    attack_detail: Option<string>,
    xai_reasons: Option<seq<XaiFeature>>,
    review_status: Option<string>,
    reviewed_at: Option<string>,
    review_note: Option<string>,
    created_at: Option<string>)
}
