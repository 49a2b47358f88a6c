/**
 * The gRPC adapter: checks the required fields of a payment request, builds
 * the payment record from it, calls the use case, and maps results back to
 * the wire messages.
 */
module GrpcHandler {
  import opened Wrappers
  import opened Domain
  import opened Store
  import opened Gateways
  import opened UseCase

  /** An invoice line on the wire. */
  datatype ItemMessage = ItemMessage(ItemName: string, Quantity: Int32, Price: real)

  datatype ProcessPaymentRequest = ProcessPaymentRequest(
    UserId: string,
    Amount: real,
    Currency: string,
    PaymentMethod: string,
    PhoneNumber: string,
    EwalletCheckoutMethod: string,
    QrType: string,
    QrCallbackUrl: string,
    InvoiceNumber: string,
    Agent: string,
    Items: seq<ItemMessage>)

  datatype ProcessPaymentResponse = ProcessPaymentResponse(
    PaymentId: string, Status: string, PaymentMethod: string, QrString: string)

  datatype RefundPaymentRequest = RefundPaymentRequest(PaymentId: string, Amount: real)
  datatype RefundPaymentResponse = RefundPaymentResponse(RefundId: string, Status: string)

  datatype GetPaymentStatusRequest = GetPaymentStatusRequest(PaymentId: string)
  datatype GetPaymentStatusResponse = GetPaymentStatusResponse(PaymentId: string, Status: string, ErrorMessage: string)

  datatype ListPaymentsRequest = ListPaymentsRequest(UserId: string, Page: Int32, PageSize: Int32)

  /** A payment as listed: the summary fields only. */
  datatype PaymentMessage = PaymentMessage(
    PaymentId: string,
    UserId: string,
    Amount: real,
    Currency: string,
    PaymentMethod: string,
    Gateway: string,
    Status: string)

  datatype ListPaymentsResponse = ListPaymentsResponse(Payments: seq<PaymentMessage>, TotalCount: Int32)

  datatype GetPaymentDetailRequest = GetPaymentDetailRequest(PaymentId: string)

  datatype GetPaymentDetailResponse = GetPaymentDetailResponse(
    PaymentId: string,
    UserId: string,
    Amount: real,
    Currency: string,
    Status: string,
    PaymentMethod: string,
    Gateway: string,
    PhoneNumber: string,
    EwalletCheckoutMethod: string,
    QrType: string,
    QrCallbackUrl: string,
    QrString: string,
    InvoiceNumber: string,
    Agent: string,
    Items: seq<ItemMessage>)

  /** The messages of the required-field checks, in the order the checks run. */
  const RequiredMessages: seq<string> := [
    "user_id is required",
    "amount is required",
    "invoice_number is required",
    "agent is required",
    "items are required"]

  /** Whether the field of check `k` (in check order) is missing from the request. */
  predicate Missing(req: ProcessPaymentRequest, k: nat)
  {
    if k == 0 then req.UserId == ""
    else if k == 1 then req.Amount == 0.0
    else if k == 2 then req.InvoiceNumber == ""
    else if k == 3 then req.Agent == ""
    else k == 4 && |req.Items| == 0
  }

  /**
   * The required-field checks: no message when every field is present,
   * otherwise the message of the first check, in order, that fails.
   */
  function Validate(req: ProcessPaymentRequest): (r: Option<string>)
    ensures r.None? <==> forall k :: 0 <= k < |RequiredMessages| ==> !Missing(req, k)
    ensures r.Some? ==>
      exists k :: && 0 <= k < |RequiredMessages| && Missing(req, k)
                  && r.value == RequiredMessages[k]
                  && forall j :: 0 <= j < k ==> !Missing(req, j)
  {
    if req.UserId == "" then
      assert Missing(req, 0); Some("user_id is required")
    else if req.Amount == 0.0 then
      assert Missing(req, 1); Some("amount is required")
    else if req.InvoiceNumber == "" then
      assert Missing(req, 2); Some("invoice_number is required")
    else if req.Agent == "" then
      assert Missing(req, 3); Some("agent is required")
    else if |req.Items| == 0 then
      assert Missing(req, 4); Some("items are required")
    else
      None
  }

  /** Only an amount of exactly zero counts as missing: a negative amount passes. */
  lemma NegativeAmountPasses(req: ProcessPaymentRequest)
    requires req.Amount < 0.0
    requires req.UserId != "" && req.InvoiceNumber != "" && req.Agent != "" && |req.Items| > 0
    ensures Validate(req).None?
  {
    assert !Missing(req, 1);
  }

  function DomainItem(it: ItemMessage): Item
  {
    Item(it.ItemName, it.Quantity, it.Price)
  }

  /** The wire form of a stored item; the quantity goes through Go's `int32` conversion. */
  function MessageItem(it: Item): ItemMessage
  {
    ItemMessage(it.ItemName, ToInt32(it.Quantity), it.Price)
  }

  /** Reading back an item that came in on the wire gives the same item. */
  lemma ItemRoundTrip(it: ItemMessage)
    ensures MessageItem(DomainItem(it)) == it
  {
  }

  /** The request's items as record items: same length, same order, each field copied. */
  function DomainItems(items: seq<ItemMessage>): (r: seq<Item>)
    ensures |r| == |items|
    ensures forall i :: 0 <= i < |r| ==> r[i] == DomainItem(items[i])
  {
    seq(|items|, i requires 0 <= i < |items| => DomainItem(items[i]))
  }

  /** Converts the request's items into a slice of the same length. */
  method ConvertItems(items: seq<ItemMessage>) returns (r: seq<Item>)
    ensures r == DomainItems(items)
  {
    var a := new Item[|items|];
    for i := 0 to |items|
      invariant forall j :: 0 <= j < i ==> a[j] == DomainItem(items[j])
    {
      a[i] := DomainItem(items[i]);
    }
    r := a[..];
  }

  /** Converts a record's items back to their wire form. */
  method MessageItems(items: seq<Item>) returns (r: seq<ItemMessage>)
    ensures |r| == |items|
    ensures forall i :: 0 <= i < |r| ==> r[i] == MessageItem(items[i])
  {
    var a := new ItemMessage[|items|];
    for i := 0 to |items|
      invariant forall j :: 0 <= j < i ==> a[j] == MessageItem(items[j])
    {
      a[i] := MessageItem(items[i]);
    }
    r := a[..];
  }

  /**
   * The record built from a validated request: every request field copied,
   * the freshly generated id as its id, and no status, gateway or QR payload yet.
   */
  function NewPayment(req: ProcessPaymentRequest, paymentId: string, items: seq<Item>): (p: Payment)
    ensures p.PaymentID == paymentId && p.Items == items
    ensures p.Status == "" && p.Gateway == "" && p.QrString == ""
    ensures p.UserID == req.UserId && p.Amount == req.Amount && p.Currency == req.Currency
    ensures p.PaymentMethod == req.PaymentMethod && p.PhoneNumber == req.PhoneNumber
    ensures p.EwalletCheckoutMethod == req.EwalletCheckoutMethod && p.QrType == req.QrType
    ensures p.QrCallbackURL == req.QrCallbackUrl && p.InvoiceNumber == req.InvoiceNumber && p.Agent == req.Agent
  {
    Payment(
      PaymentID := paymentId,
      UserID := req.UserId,
      Amount := req.Amount,
      Gateway := "",
      Currency := req.Currency,
      Status := "",
      PaymentMethod := req.PaymentMethod,
      PhoneNumber := req.PhoneNumber,
      EwalletCheckoutMethod := req.EwalletCheckoutMethod,
      QrType := req.QrType,
      QrCallbackURL := req.QrCallbackUrl,
      InvoiceNumber := req.InvoiceNumber,
      Agent := req.Agent,
      Items := items,
      QrString := "")
  }

  function ResponseOf(p: Payment): ProcessPaymentResponse
  {
    ProcessPaymentResponse(p.PaymentID, p.Status, p.PaymentMethod, p.QrString)
  }

  function MessageOf(p: Payment): PaymentMessage
  {
    PaymentMessage(p.PaymentID, p.UserID, p.Amount, p.Currency, p.PaymentMethod, p.Gateway, p.Status)
  }

  /** The list response: one summary per payment, in order, and the total as an int32. */
  method ListResponse(payments: seq<Payment>, total: int) returns (resp: ListPaymentsResponse)
    ensures resp.TotalCount == ToInt32(total)
    ensures |resp.Payments| == |payments|
    ensures forall i :: 0 <= i < |payments| ==> resp.Payments[i] == MessageOf(payments[i])
  {
    var summaries: seq<PaymentMessage> := [];
    for i := 0 to |payments|
      invariant |summaries| == i
      invariant forall j :: 0 <= j < i ==> summaries[j] == MessageOf(payments[j])
    {
      summaries := summaries + [MessageOf(payments[i])];
    }
    resp := ListPaymentsResponse(summaries, ToInt32(total));
  }

  class PaymentHandler {
    const useCase: PaymentUseCase

    ghost predicate Valid()
    {
      useCase.Valid()
    }

    constructor (useCase: PaymentUseCase)
      requires useCase.Valid()
      ensures Valid() && this.useCase == useCase
    {
      this.useCase := useCase;
    }

    /**
     * Validates the request, builds the record with `paymentId` (the
     * generated UUID) as its id and processes it. A failed check returns
     * its message without calling the use case; a use-case error is
     * returned unchanged.
     */
    method ProcessPayment(req: ProcessPaymentRequest, paymentId: string) returns (r: Result<ProcessPaymentResponse, Error>)
      requires Valid()
      modifies useCase.stripe, useCase.xendit, useCase.repo
      ensures Validate(req).Some? ==>
        && r == Err(Invalid(Validate(req).value))
        && useCase.repo.records == old(useCase.repo.records)
        && useCase.stripe.calls == old(useCase.stripe.calls)
        && useCase.xendit.calls == old(useCase.xendit.calls)
      ensures Validate(req).None? ==>
        var outcome := ProcessOutcome(NewPayment(req, paymentId, DomainItems(req.Items)), useCase.stripe.answer, useCase.xendit.answer);
        && r == (if outcome.Ok? then Ok(ResponseOf(outcome.value)) else Err(outcome.error))
        && useCase.repo.records == old(useCase.repo.records) + (if outcome.Ok? then [outcome.value] else [])
      ensures r.Ok? ==> r.value.Status == Pending && r.value.PaymentMethod == req.PaymentMethod && r.value.QrString == ""
    {
      var invalid := Validate(req);
      if invalid.Some? {
        return Err(Invalid(invalid.value));
      }
      var items := ConvertItems(req.Items);
      var payment := NewPayment(req, paymentId, items);
      var result := useCase.ProcessPayment(payment);
      if result.Err? {
        return Err(result.error);
      }
      return Ok(ResponseOf(result.value));
    }

    /** Refunds without validating the request; a success always reports status refunded. */
    method RefundPayment(req: RefundPaymentRequest) returns (r: Result<RefundPaymentResponse, Error>)
      requires Valid()
      modifies useCase.stripe, useCase.xendit, useCase.repo
      ensures var outcome := RefundOutcome(old(useCase.repo.records), req.PaymentId, req.Amount, useCase.stripe.answer, useCase.xendit.answer);
        r == if outcome.Ok? then Ok(RefundPaymentResponse(outcome.value, Refunded)) else Err(outcome.error)
      ensures useCase.repo.records ==
        if r.Ok? then WithStatus(old(useCase.repo.records), req.PaymentId, Refunded) else old(useCase.repo.records)
    {
      var result := useCase.RefundPayment(req.PaymentId, req.Amount);
      if result.Err? {
        return Err(result.error);
      }
      return Ok(RefundPaymentResponse(result.value, "refunded"));
    }

    /** The id and status of the first record with the requested id. */
    method GetPaymentStatus(req: GetPaymentStatusRequest) returns (r: Result<GetPaymentStatusResponse, Error>)
      ensures var found := Lookup(useCase.repo.records, req.PaymentId);
        r == if found.Ok? then Ok(GetPaymentStatusResponse(found.value.PaymentID, found.value.Status, "")) else Err(found.error)
      ensures r.Ok? ==> r.value.PaymentId == req.PaymentId && r.value.ErrorMessage == ""
    {
      var payment := useCase.GetPaymentStatus(req.PaymentId);
      if payment.Err? {
        return Err(payment.error);
      }
      return Ok(GetPaymentStatusResponse(payment.value.PaymentID, payment.value.Status, ""));
    }

    /** One page of the user's payments as summaries, with the user's total. */
    method ListPayments(req: ListPaymentsRequest) returns (r: Result<ListPaymentsResponse, Error>)
      requires req.Page >= 1 && req.PageSize >= 1
      ensures var listed := Window(Matching(useCase.repo.records, req.UserId), Offset(req.Page, req.PageSize), req.PageSize);
        && r.Ok?
        && |r.value.Payments| == |listed|
        && (forall i :: 0 <= i < |listed| ==> r.value.Payments[i] == MessageOf(listed[i]))
        && r.value.TotalCount == ToInt32(|Matching(useCase.repo.records, req.UserId)|)
      ensures forall i :: 0 <= i < |r.value.Payments| ==> r.value.Payments[i].UserId == req.UserId
    {
      var payments, total := useCase.ListPayments(req.UserId, req.Page, req.PageSize);
      var resp := ListResponse(payments, total);
      return Ok(resp);
    }

    /** Every field of the first record with the requested id, its items in wire form. */
    method GetPaymentDetail(req: GetPaymentDetailRequest) returns (r: Result<GetPaymentDetailResponse, Error>)
      ensures Lookup(useCase.repo.records, req.PaymentId).Err? ==> r == Err(NotFound(req.PaymentId))
      ensures r.Ok? <==> Lookup(useCase.repo.records, req.PaymentId).Ok?
      ensures r.Ok? ==>
        var p := Lookup(useCase.repo.records, req.PaymentId).value;
        && r.value.PaymentId == req.PaymentId
        && r.value == GetPaymentDetailResponse(
             p.PaymentID, p.UserID, p.Amount, p.Currency, p.Status, p.PaymentMethod, p.Gateway,
             p.PhoneNumber, p.EwalletCheckoutMethod, p.QrType, p.QrCallbackURL, p.QrString,
             p.InvoiceNumber, p.Agent, r.value.Items)
        && |r.value.Items| == |p.Items|
        && forall i :: 0 <= i < |p.Items| ==> r.value.Items[i] == MessageItem(p.Items[i])
    {
      var found := useCase.GetPaymentStatus(req.PaymentId);
      if found.Err? {
        return Err(found.error);
      }
      var p := found.value;
      var items := MessageItems(p.Items);
      return Ok(GetPaymentDetailResponse(
        p.PaymentID, p.UserID, p.Amount, p.Currency, p.Status, p.PaymentMethod, p.Gateway,
        p.PhoneNumber, p.EwalletCheckoutMethod, p.QrType, p.QrCallbackURL, p.QrString,
        p.InvoiceNumber, p.Agent, items));
    }
  }
}
