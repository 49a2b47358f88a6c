/**
 * The payment use case (current revision): routes a payment to one gateway
 * operation by its payment-method code, records the gateway's reference,
 * refunds through the gateway serving the method, and passes reads through
 * to the store.
 */
module UseCase {
  import opened Wrappers
  import opened Domain
  import opened Store
  import opened Gateways
  import DokuClient

  const EWalletCodes: set<string> := {"XEN-OVO", "XEN-DANA", "XEN-LINKAJA"}
  const VirtualAccountCodes: set<string> := {"XEN-BCA", "XEN-BNI", "XEN-BRI"}

  /** Every payment-method code this revision accepts. */
  const SupportedCodes: set<string> :=
    EWalletCodes + VirtualAccountCodes + {"XEN-QR", "XEN-DEFAULT", "STP-DEFAULT"}

  /** The codes served by Xendit all carry the "XEN-" prefix. */
  predicate XenditCode(m: string)
  {
    |m| >= 4 && m[..4] == "XEN-"
  }

  /** The gateway and the operation a payment is charged through. */
  datatype Route = Route(provider: Provider, op: Operation)

  /** The charge routing table. */
  function ChargeRoute(m: string): (r: Option<Route>)
    ensures r.Some? <==> m in SupportedCodes
    ensures r.Some? ==> r.value.provider != Doku
    ensures r.Some? ==> (r.value.provider == Xendit <==> XenditCode(m))
    ensures r.Some? ==> (r.value.op == ChargeEWalletOp <==> m in EWalletCodes)
    ensures r.Some? ==> (r.value.op == CreateVirtualAccountOp <==> m in VirtualAccountCodes)
    ensures r.Some? ==> (r.value.op == CreateQRCodeOp <==> m == "XEN-QR")
  {
    if m in EWalletCodes then Some(Route(Xendit, ChargeEWalletOp))
    else if m in VirtualAccountCodes then Some(Route(Xendit, CreateVirtualAccountOp))
    else if m == "XEN-QR" then Some(Route(Xendit, CreateQRCodeOp))
    else if m == "XEN-DEFAULT" then Some(Route(Xendit, ProcessPaymentOp))
    else if m == "STP-DEFAULT" then Some(Route(Stripe, ProcessPaymentOp))
    else None
  }

  /** The refund routing table: which gateway refunds a payment made with method `m`. */
  function RefundProvider(m: string): (r: Option<Provider>)
    ensures r.Some? <==> m in SupportedCodes
    ensures r.Some? ==> r.value != Doku
    ensures r.Some? ==> (r.value == Xendit <==> XenditCode(m))
  {
    if m in {"XEN-OVO", "XEN-DANA", "XEN-LINKAJA", "XEN-BCA", "XEN-BNI", "XEN-BRI", "XEN-QR", "XEN-DEFAULT"} then
      Some(Xendit)
    else if m == "STP-DEFAULT" then StripeCodeIsNotXendit(); Some(Stripe)
    else None
  }

  /** Stripe's code does not carry Xendit's prefix. */
  lemma StripeCodeIsNotXendit()
    ensures !XenditCode("STP-DEFAULT")
  {
    assert "STP-DEFAULT"[..4][0] == 'S';
  }

  /**
   * The two tables agree: a method is refundable exactly when it is
   * chargeable, and through the gateway that charged it.
   */
  lemma RefundFollowsCharge(m: string)
    ensures RefundProvider(m).Some? <==> ChargeRoute(m).Some?
    ensures ChargeRoute(m).Some? ==> RefundProvider(m).value == ChargeRoute(m).value.provider
  {
  }

  /** The gateway's answer function for `provider`, one of the two the use case holds. */
  function AnswerOf(provider: Provider, stripeAnswer: Call -> Reply, xenditAnswer: Call -> Reply): Call -> Reply
  {
    if provider == Stripe then stripeAnswer else xenditAnswer
  }

  /**
   * The record once the gateway has answered a charge: its error, or the
   * record with the gateway's reference as id and the new status, every
   * other field untouched.
   */
  function Settle(p: Payment, reply: Reply, status: string): (r: Result<Payment, Error>)
    ensures r.Ok? <==> reply.Ok?
    ensures reply.Err? ==> r.error == reply.error
    ensures r.Ok? ==> r.value.PaymentID == reply.value && r.value.Status == status
    ensures r.Ok? ==> SameExceptIdAndStatus(p, r.value)
  {
    match reply
    case Err(e) => Err(e)
    case Ok(reference) => Ok(p.(PaymentID := reference, Status := status))
  }

  /** What ProcessPayment returns, given how the two providers answer. */
  function ProcessOutcome(p: Payment, stripeAnswer: Call -> Reply, xenditAnswer: Call -> Reply): (r: Result<Payment, Error>)
    ensures p.PaymentMethod !in SupportedCodes ==> r == Err(UnsupportedMethod)
    ensures r.Ok? ==> p.PaymentMethod in SupportedCodes
    ensures r.Ok? ==> r.value.Status == Pending && SameExceptIdAndStatus(p, r.value)
    ensures ChargeRoute(p.PaymentMethod).Some? ==>
      var route := ChargeRoute(p.PaymentMethod).value;
      var reply := AnswerOf(route.provider, stripeAnswer, xenditAnswer)(Charge(route.op, p));
      && (r.Ok? <==> reply.Ok?)
      && (reply.Ok? ==> r.value.PaymentID == reply.value)
      && (reply.Err? ==> r == Err(reply.error))
  {
    match ChargeRoute(p.PaymentMethod)
    case None => Err(UnsupportedMethod)
    case Some(route) => Settle(p, AnswerOf(route.provider, stripeAnswer, xenditAnswer)(Charge(route.op, p)), Pending)
  }

  /** The gateway a refund of `id` is sent to, if it gets that far. */
  function RefundTarget(s: seq<Payment>, id: string): (r: Option<Provider>)
    ensures Lookup(s, id).Err? ==> r.None?
    ensures r.Some? ==> Lookup(s, id).Ok? && Lookup(s, id).value.PaymentMethod in SupportedCodes
    ensures Lookup(s, id).Ok? ==> r == RefundProvider(Lookup(s, id).value.PaymentMethod)
  {
    match Lookup(s, id)
    case Err(_) => None
    case Ok(p) => RefundProvider(p.PaymentMethod)
  }

  /** What RefundPayment returns on store contents `s`, given how the two providers answer. */
  function RefundOutcome(s: seq<Payment>, id: string, amount: real, stripeAnswer: Call -> Reply, xenditAnswer: Call -> Reply)
    : (r: Result<string, Error>)
    ensures Lookup(s, id).Err? ==> r == Err(NotFound(id))
    ensures Lookup(s, id).Ok? && Lookup(s, id).value.PaymentMethod !in SupportedCodes ==> r == Err(UnsupportedMethod)
    ensures r.Ok? ==> RefundTarget(s, id).Some?
    ensures RefundTarget(s, id).Some? ==>
      r == AnswerOf(RefundTarget(s, id).value, stripeAnswer, xenditAnswer)(Refund(id, amount))
  {
    match Lookup(s, id)
    case Err(e) => Err(e)
    case Ok(p) =>
      match RefundProvider(p.PaymentMethod)
      case None => Err(UnsupportedMethod)
      case Some(provider) => AnswerOf(provider, stripeAnswer, xenditAnswer)(Refund(id, amount))
  }

  /**
   * Nothing guards against refunding twice: the status is never consulted,
   * so once a refund has marked the record refunded, a second refund sends
   * the same Refund call to the same gateway again. The outcomes are equal
   * here only because the model takes a gateway's reply to be a fixed
   * function of the call; a real provider may answer the repeat differently.
   */
  lemma RefundIgnoresStatus(s: seq<Payment>, id: string, amount: real, stripeAnswer: Call -> Reply, xenditAnswer: Call -> Reply)
    ensures RefundTarget(WithStatus(s, id, Refunded), id) == RefundTarget(s, id)
    ensures RefundOutcome(WithStatus(s, id, Refunded), id, amount, stripeAnswer, xenditAnswer)
         == RefundOutcome(s, id, amount, stripeAnswer, xenditAnswer)
  {
    WithStatusKeepsIndex(s, id, Refunded);
  }

  /**
   * A hypothetical setup: `ProcessOutcome` fed the Doku stub's replies for
   * both providers. The use case itself holds a Stripe and a Xendit gateway
   * and cannot be wired to the Doku client, so this describes the stub, not
   * a reachable configuration: every supported payment would keep the id it
   * was created with and only become pending.
   */
  lemma DokuKeepsCreatedId(p: Payment)
    requires p.PaymentMethod in SupportedCodes
    ensures ProcessOutcome(p, DokuClient.Answer, DokuClient.Answer) == Ok(p.(Status := Pending))
  {
    var route := ChargeRoute(p.PaymentMethod).value;
    var reply := DokuClient.Answer(Charge(route.op, p));
    assert reply == Ok(p.PaymentID);
  }

  class PaymentUseCase {
    const stripe: PaymentGateway
    const xendit: PaymentGateway
    const repo: PaymentStore

    ghost predicate Valid()
    {
      && stripe != xendit
      && stripe.provider == Stripe && stripe.Valid()
      && xendit.provider == Xendit && xendit.Valid()
    }

    constructor (stripe: PaymentGateway, xendit: PaymentGateway, repo: PaymentStore)
      requires stripe != xendit
      requires stripe.provider == Stripe && stripe.Valid()
      requires xendit.provider == Xendit && xendit.Valid()
      ensures Valid()
      ensures this.stripe == stripe && this.xendit == xendit && this.repo == repo
    {
      this.stripe := stripe;
      this.xendit := xendit;
      this.repo := repo;
    }

    /**
     * Charges the record through the operation its payment method routes
     * to, then saves it with the gateway's reference as id and status
     * pending. An unsupported method calls no gateway; a failed charge
     * saves nothing.
     */
    method ProcessPayment(p: Payment) returns (r: Result<Payment, Error>)
      requires Valid()
      modifies stripe, xendit, repo
      ensures r == ProcessOutcome(p, stripe.answer, xendit.answer)
      ensures repo.records == old(repo.records) + (if r.Ok? then [r.value] else [])
      ensures var route := ChargeRoute(p.PaymentMethod);
        && stripe.calls == old(stripe.calls) + (if route.Some? && route.value.provider == Stripe then [Charge(route.value.op, p)] else [])
        && xendit.calls == old(xendit.calls) + (if route.Some? && route.value.provider == Xendit then [Charge(route.value.op, p)] else [])
    {
      var m := p.PaymentMethod;
      var reply: Reply;
      if m in EWalletCodes {
        reply := xendit.ChargeEWallet(p);
      } else if m in VirtualAccountCodes {
        reply := xendit.CreateVirtualAccount(p);
      } else if m == "XEN-QR" {
        reply := xendit.CreateQRCode(p);
      } else if m == "XEN-DEFAULT" {
        reply := xendit.ProcessPayment(p);
      } else if m == "STP-DEFAULT" {
        reply := stripe.ProcessPayment(p);
      } else {
        return Err(UnsupportedMethod);
      }
      if reply.Err? {
        return Err(reply.error);
      }
      var processed := p.(PaymentID := reply.value, Status := Pending);
      repo.Save(processed);
      return Ok(processed);
    }

    /**
     * Looks the record up, refunds through the gateway serving its payment
     * method, and on success marks it refunded. A missing record or an
     * unsupported method calls no gateway; a failed refund updates nothing.
     * Xendit's refund is a stub, so a Xendit refund of a found record
     * always succeeds with an empty refund id.
     */
    method RefundPayment(paymentId: string, amount: real) returns (r: Result<string, Error>)
      requires Valid()
      modifies stripe, xendit, repo
      ensures r == RefundOutcome(old(repo.records), paymentId, amount, stripe.answer, xendit.answer)
      ensures repo.records == if r.Ok? then WithStatus(old(repo.records), paymentId, Refunded) else old(repo.records)
      ensures var target := RefundTarget(old(repo.records), paymentId);
        && stripe.calls == old(stripe.calls) + (if target == Some(Stripe) then [Refund(paymentId, amount)] else [])
        && xendit.calls == old(xendit.calls) + (if target == Some(Xendit) then [Refund(paymentId, amount)] else [])
      ensures RefundTarget(old(repo.records), paymentId) == Some(Xendit) ==> r == Ok("")
    {
      var found := repo.FindByID(paymentId);
      if found.Err? {
        return Err(found.error);
      }
      var payment := found.value;
      var m := payment.PaymentMethod;
      var reply: Reply;
      if m in {"XEN-OVO", "XEN-DANA", "XEN-LINKAJA", "XEN-BCA", "XEN-BNI", "XEN-BRI", "XEN-QR", "XEN-DEFAULT"} {
        reply := xendit.RefundPayment(paymentId, amount);
      } else if m == "STP-DEFAULT" {
        reply := stripe.RefundPayment(paymentId, amount);
      } else {
        return Err(UnsupportedMethod);
      }
      if reply.Err? {
        return Err(reply.error);
      }
      repo.UpdateStatus(paymentId, Refunded);
      return Ok(reply.value);
    }

    /** The first record with this id, read without changing anything. */
    method GetPaymentStatus(paymentId: string) returns (r: Result<Payment, Error>)
      ensures r == Lookup(repo.records, paymentId)
      ensures r.Ok? ==> r.value.PaymentID == paymentId && r.value in repo.records
    {
      r := repo.FindByID(paymentId);
    }

    /** One page of a user's records and the user's total, read without changing anything. */
    method ListPayments(userId: string, page: int, pageSize: int) returns (payments: seq<Payment>, total: nat)
      requires page >= 1 && pageSize >= 1
      ensures payments == Window(Matching(repo.records, userId), Offset(page, pageSize), pageSize)
      ensures total == |Matching(repo.records, userId)|
    {
      payments, total := repo.FindByUserID(userId, page, pageSize);
    }
  }
}
