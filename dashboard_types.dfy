/** The dashboard's own transaction record, richer in behavioural signals
    than the scoring API's, with the analyst's review status. */
module DashboardTypes {

  datatype TransactionStatus = PENDING | APPROVED | FLAGGED | BLOCKED

  datatype DeviceOs = IOS | ANDROID

  /** The operating system as the record spells it. */
  function OsName(os: DeviceOs): string {
    match os
    case IOS => "iOS"
    case ANDROID => "Android"
  }

  /** One dashboard transaction. Amounts, scores and counters are numbers
      in the source; counters are integers here, scores and amounts reals. */
  datatype DashTransaction = DashTransaction(
    txnId: string,
    timestamp: string,
    userId: string,
    deviceId: string,
    deviceOs: DeviceOs,
    ipCountry: string,
    issuerId: string,
    issuerCountry: string,
    merchantId: string,
    merchantMcc: string,
    merchantCity: string,
    merchantRiskScore: real,
    amountIdr: real,
    userAvgAmount7d: real,
    userTxnCount24h: int,
    txnVelocity10m: int,
    timeSinceLastTxnSec: int,
    countrySwitch24h: int,
    isNewDevice: bool,
    sharedDevice24h: bool,
    status: TransactionStatus)
}
