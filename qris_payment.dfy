/** The simulated QRIS payment phone: a fixed amount and merchant, a Pay
    button that asks the payment gateway for a QR code, and a success
    screen after the (simulated) scan. The gateway call and the three
    second scan delay are explicit steps: the call's outcome is a
    parameter, and the scan timer is a pending flag fired by its own
    step. */
module QrisPayment {
  import opened Base

  datatype PayStatus = Idle | Processing | Success

  /** The amount and merchant, fixed for the view's lifetime. */
  const AMOUNT: int := 1500000
  const MERCHANT: string := "Paylabs Merchant - Gandaria City"

  /** The gateway's answer: the pay code, or a failure. */
  datatype QrisOutcome = PayCode(code: string) | GatewayFailed

  /** The view's state; `scanPending` is the scan timer set after a QR code
      arrived. */
  datatype PayState = PayState(status: PayStatus, qrCodeData: Option<string>, scanPending: bool)

  const INITIAL: PayState := PayState(Idle, None, false)

  /** `handlePay` up to the call. */
  function Pay(st: PayState): (r: PayState)
    ensures r.status == Processing && r.qrCodeData == st.qrCodeData && r.scanPending == st.scanPending
  {
    st.(status := Processing)
  }

  /** `handlePay` after the call: a pay code is shown and the scan timer
      set; a failure returns to idle with the QR code as it was. */
  function Resolved(st: PayState, outcome: QrisOutcome): (r: PayState)
    ensures outcome.PayCode? ==> r == PayState(st.status, Some(outcome.code), true)
    ensures outcome.GatewayFailed? ==> r == PayState(Idle, st.qrCodeData, st.scanPending)
  {
    match outcome
    case PayCode(code) => st.(qrCodeData := Some(code), scanPending := true)
    case GatewayFailed => st.(status := Idle)
  }

  /** The scan timer fires: the payment succeeds. */
  function Scanned(st: PayState): (r: PayState)
    ensures r == PayState(Success, st.qrCodeData, false)
  {
    st.(status := Success, scanPending := false)
  }

  /** The Done button on the success screen. */
  function Done(st: PayState): (r: PayState)
    ensures r.status == Idle && r.qrCodeData == st.qrCodeData && r.scanPending == st.scanPending
  {
    st.(status := Idle)
  }

  /** What the phone shows. */
  datatype Screen = SuccessScreen | QrScreen | AmountScreen

  function ScreenOf(st: PayState): (s: Screen)
    ensures s == SuccessScreen <==> st.status == Success
    ensures s == QrScreen <==> st.status != Success && st.qrCodeData.Some? && st.qrCodeData.value != ""
  {
    if st.status == Success then SuccessScreen
    else if st.qrCodeData.Some? && st.qrCodeData.value != "" then QrScreen
    else AmountScreen
  }

  /** The Pay button is disabled while a payment is processing. */
  predicate PayDisabled(st: PayState) {
    st.status == Processing
  }

  /** A successful run from the start: pay, receive the code, scan. The
      phone ends on the success screen with the code kept, and the Pay
      button is disabled from the click until the code's scan. */
  lemma SuccessfulRun(code: string)
    ensures var s1 := Pay(INITIAL);
            var s2 := Resolved(s1, PayCode(code));
            var s3 := Scanned(s2);
            PayDisabled(s1) && PayDisabled(s2) && !PayDisabled(s3)
            && ScreenOf(s3) == SuccessScreen && s3.qrCodeData == Some(code)
  {
  }

  /** A failed call re-enables Pay and leaves the QR code as it was, from
      any state. */
  lemma FailureKeepsQr(st: PayState)
    ensures !PayDisabled(Resolved(Pay(st), GatewayFailed))
    ensures Resolved(Pay(st), GatewayFailed).qrCodeData == st.qrCodeData
    ensures ScreenOf(Resolved(Pay(st), GatewayFailed)) != SuccessScreen
  {
  }

  /** Done does not clear the QR code: after a successful payment the pay
      screen shows the old code again instead of the amount. */
  lemma DoneShowsOldQr(code: string)
    requires code != ""
    ensures ScreenOf(Done(Scanned(Resolved(Pay(INITIAL), PayCode(code))))) == QrScreen
  {
  }

  class QrisView {
    var status: PayStatus
    var qrCodeData: Option<string>
    var scanPending: bool

    function Snapshot(): PayState
      reads this
    {
      PayState(status, qrCodeData, scanPending)
    }

    constructor ()
      ensures Snapshot() == INITIAL
    {
      status, qrCodeData, scanPending := Idle, None, false;
    }

    method HandlePay()
      modifies this
      ensures Snapshot() == Pay(old(Snapshot()))
    {
      status := Processing;
    }

    method GatewayAnswered(outcome: QrisOutcome)
      modifies this
      ensures Snapshot() == Resolved(old(Snapshot()), outcome)
    {
      match outcome {
        case PayCode(code) =>
          qrCodeData := Some(code);
          scanPending := true;
        case GatewayFailed =>
          status := Idle;
      }
    }

    /** The scan timer fires; `onPaymentSuccess` receives the amount and
        merchant. */
    method ScanCompleted() returns (amount: int, merchant: string)
      requires scanPending
      modifies this
      ensures Snapshot() == Scanned(old(Snapshot()))
      ensures amount == AMOUNT && merchant == MERCHANT
    {
      status := Success;
      scanPending := false;
      amount, merchant := AMOUNT, MERCHANT;
    }

    method HandleDone()
      modifies this
      ensures Snapshot() == Done(old(Snapshot()))
    {
      status := Idle;
    }
  }
}
