/**
 * The Doku client: a stub whose five operations neither fail nor reach the
 * provider. It is the one gateway whose behaviour is fully known.
 */
module DokuClient {
  import opened Wrappers
  import opened Domain

  /**
   * What the Doku client answers to each call of the gateway interface:
   * every charge operation echoes the record's own id, a refund answers
   * with an empty refund id, and no call fails.
   */
  function Answer(c: Call): (r: Reply)
    ensures r.Ok?
    ensures c.Charge? ==> r.value == c.payment.PaymentID
    ensures c.Refund? ==> r.value == ""
  {
    match c
    case Charge(ProcessPaymentOp, p) => Ok(p.PaymentID)
    case Refund(_, _) => Ok("")
    case Charge(ChargeEWalletOp, p) => Ok(p.PaymentID)
    case Charge(CreateVirtualAccountOp, p) => Ok(p.PaymentID)
    case Charge(CreateQRCodeOp, p) => Ok(p.PaymentID)
  }
}
