/**
 * The domain entities of the payment service: the payment record with its
 * line items, the errors the service reports, and the shape of a call made
 * to an external payment gateway.
 */
module Domain {
  import opened Wrappers

  /** One line of an invoice. Amounts and prices are opaque reals. */
  datatype Item = Item(ItemName: string, Quantity: int, Price: real)

  /**
   * The payment record. `QrString` is the QR payload that the gRPC adapter
   * reads back; nothing in the service assigns it. The creation and update
   * timestamps are never set by the service and are not modelled.
   */
  datatype Payment = Payment(
    PaymentID: string,
    UserID: string,
    Amount: real,
    Gateway: string,
    Currency: string,
    Status: string,
    PaymentMethod: string,
    PhoneNumber: string,
    EwalletCheckoutMethod: string,
    QrType: string,
    QrCallbackURL: string,
    InvoiceNumber: string,
    Agent: string,
    Items: seq<Item>,
    QrString: string)

  /** Status values written by the two revisions of the use case. */
  const Pending: string := "pending"
  const Refunded: string := "refunded"
  const Processed: string := "processed"

  /** Every field of `a` and `b` agrees except possibly `PaymentID` and `Status`. */
  predicate SameExceptIdAndStatus(a: Payment, b: Payment)
  {
    && a.UserID == b.UserID
    && a.Amount == b.Amount
    && a.Gateway == b.Gateway
    && a.Currency == b.Currency
    && a.PaymentMethod == b.PaymentMethod
    && a.PhoneNumber == b.PhoneNumber
    && a.EwalletCheckoutMethod == b.EwalletCheckoutMethod
    && a.QrType == b.QrType
    && a.QrCallbackURL == b.QrCallbackURL
    && a.InvoiceNumber == b.InvoiceNumber
    && a.Agent == b.Agent
    && a.Items == b.Items
    && a.QrString == b.QrString
  }

  /** Failures the service reports. Go reports them all as plain `error` values. */
  datatype Error =
    | UnsupportedMethod             // "unsupported payment method"
    | NotFound(paymentId: string)   // the store's "no documents" error
    | GatewayError(message: string) // whatever the provider SDK returned
    | Invalid(message: string)      // a failed required-field check

  /** The four charge operations of the gateway interface. */
  datatype Operation = ProcessPaymentOp | ChargeEWalletOp | CreateVirtualAccountOp | CreateQRCodeOp

  /** A call to a gateway: one of the four charge operations on a record, or a refund. */
  datatype Call =
    | Charge(op: Operation, payment: Payment)
    | Refund(paymentId: string, amount: real)

  /** What a gateway returns: its reference (a charge or refund id) or an error. */
  type Reply = Result<string, Error>

  /** The external providers the service talks to. */
  datatype Provider = Stripe | Xendit | Doku

  /** The signed 32-bit integers of the wire format. */
  type Int32 = x: int | -0x8000_0000 <= x < 0x8000_0000

  /** Go's `int32(x)` conversion: two's-complement truncation to 32 bits. */
  function ToInt32(x: int): (r: Int32)
    ensures (x - r) % 0x1_0000_0000 == 0
    ensures -0x8000_0000 <= x < 0x8000_0000 ==> r == x
  {
    var m := x % 0x1_0000_0000;
    if m < 0x8000_0000 then m else m - 0x1_0000_0000
  }
}
