/**
 * The earlier revision of the payment use case. Its payment method names
 * the gateway itself ("stripe" or "xendit"), a charge always goes through
 * the gateway's generic ProcessPayment, a processed payment is saved with
 * status "processed", and refunds are not implemented.
 */
module LegacyUseCase {
  import opened Wrappers
  import opened Domain
  import opened Store
  import opened Gateways
  import UseCase

  /** The earlier routing table. */
  function LegacyProvider(m: string): (r: Option<Provider>)
    ensures r.Some? <==> m in {"stripe", "xendit"}
    ensures r == Some(Stripe) <==> m == "stripe"
    ensures r == Some(Xendit) <==> m == "xendit"
  {
    if m == "stripe" then Some(Stripe)
    else if m == "xendit" then Some(Xendit)
    else None
  }

  /**
   * No code is accepted by both revisions: a client still sending "stripe"
   * or "xendit" is refused by the current one, and the current codes are
   * refused by the earlier one.
   */
  lemma RevisionsShareNoCode(m: string)
    ensures LegacyProvider(m).Some? ==> UseCase.ChargeRoute(m).None?
    ensures UseCase.ChargeRoute(m).Some? ==> LegacyProvider(m).None?
  {
  }

  /** What the earlier ProcessPayment returns, given how the two providers answer. */
  function LegacyOutcome(p: Payment, stripeAnswer: Call -> Reply, xenditAnswer: Call -> Reply): (r: Result<Payment, Error>)
    ensures LegacyProvider(p.PaymentMethod).None? ==> r == Err(UnsupportedMethod)
    ensures r.Ok? ==> r.value.Status == Processed && SameExceptIdAndStatus(p, r.value)
    ensures LegacyProvider(p.PaymentMethod).Some? ==>
      var reply := UseCase.AnswerOf(LegacyProvider(p.PaymentMethod).value, stripeAnswer, xenditAnswer)(Charge(ProcessPaymentOp, p));
      && (r.Ok? <==> reply.Ok?)
      && (reply.Ok? ==> r.value.PaymentID == reply.value)
      && (reply.Err? ==> r == Err(reply.error))
  {
    match LegacyProvider(p.PaymentMethod)
    case None => Err(UnsupportedMethod)
    case Some(provider) =>
      UseCase.Settle(p, UseCase.AnswerOf(provider, stripeAnswer, xenditAnswer)(Charge(ProcessPaymentOp, p)), Processed)
  }

  class LegacyPaymentUseCase {
    const repo: PaymentStore
    const stripe: PaymentGateway
    const xendit: PaymentGateway

    /**
     * Both slots take any gateway: the same client may fill both, and a
     * slot's name says only which payment method routes to it.
     */
    constructor (repo: PaymentStore, stripe: PaymentGateway, xendit: PaymentGateway)
      ensures this.repo == repo && this.stripe == stripe && this.xendit == xendit
    {
      this.repo := repo;
      this.stripe := stripe;
      this.xendit := xendit;
    }

    /**
     * Charges through the gateway the method names, then saves the record
     * with the gateway's reference as id and status processed. An unknown
     * method calls no gateway; a failed charge saves nothing. When one
     * client fills both slots, it receives the one call either way.
     */
    method ProcessPayment(p: Payment) returns (r: Result<Payment, Error>)
      modifies stripe, xendit, repo
      ensures r == LegacyOutcome(p, stripe.answer, xendit.answer)
      ensures repo.records == old(repo.records) + (if r.Ok? then [r.value] else [])
      ensures var provider := LegacyProvider(p.PaymentMethod);
        var called := if provider == Some(Stripe) then stripe else xendit;
        && (provider.None? ==> stripe.calls == old(stripe.calls) && xendit.calls == old(xendit.calls))
        && (provider.Some? ==> called.calls == old(called.calls) + [Charge(ProcessPaymentOp, p)])
        && (provider.Some? && stripe != xendit ==>
              var other := if called == stripe then xendit else stripe;
              other.calls == old(other.calls))
    {
      var reply: Reply;
      match p.PaymentMethod {
        case "stripe" =>
          reply := stripe.ProcessPayment(p);
        case "xendit" =>
          reply := xendit.ProcessPayment(p);
        case _ =>
          return Err(UnsupportedMethod);
      }
      if reply.Err? {
        return Err(reply.error);
      }
      var processed := p.(PaymentID := reply.value, Status := Processed);
      repo.Save(processed);
      return Ok(processed);
    }

    /** The refund is a stub: it succeeds with an empty refund id and touches no gateway and no record. */
    method RefundPayment(paymentId: string, amount: real) returns (r: Result<string, Error>)
      ensures r == Ok("")
    {
      return Ok("");
    }

    /** The first record with this id, read without changing anything. */
    method GetPaymentStatus(paymentId: string) returns (r: Result<Payment, Error>)
      ensures r == Lookup(repo.records, paymentId)
      ensures r.Ok? ==> r.value.PaymentID == paymentId && r.value in repo.records
    {
      r := repo.FindByID(paymentId);
    }

    /** One page of a user's records and the user's total, read without changing anything. */
    method ListPayments(userId: string, page: int, pageSize: int) returns (payments: seq<Payment>, total: nat)
      requires page >= 1 && pageSize >= 1
      ensures payments == Window(Matching(repo.records, userId), Offset(page, pageSize), pageSize)
      ensures total == |Matching(repo.records, userId)|
    {
      payments, total := repo.FindByUserID(userId, page, pageSize);
    }
  }
}
