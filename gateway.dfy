/**
 * The payment-gateway interface: five operations, each answering with a
 * provider reference or an error. A gateway is one object whose provider's
 * behaviour is given as a function from the call to its reply (the network
 * and SDK are not modelled), and which logs every call made to it.
 */
module Gateways {
  import opened Wrappers
  import opened Domain
  import DokuClient

  /**
   * What the client code fixes about each provider: the
   * Xendit client's refund is a stub that always answers "" without error,
   * and the Doku client is the stub `DokuClient.Answer`. Stripe answers
   * whatever its API answers.
   */
  ghost predicate Conforms(provider: Provider, answer: Call -> Reply)
  {
    && (provider == Xendit ==> forall id: string, amount: real :: answer(Refund(id, amount)) == Ok(""))
    && (provider == Doku ==> forall c: Call :: answer(c) == DokuClient.Answer(c))
  }

  class PaymentGateway {
    const provider: Provider
    /** The provider's reply to each call. */
    const answer: Call -> Reply
    /** Every call made to this gateway, oldest first. */
    ghost var calls: seq<Call>

    ghost predicate Valid()
    {
      Conforms(provider, answer)
    }

    constructor (provider: Provider, answer: Call -> Reply)
      requires Conforms(provider, answer)
      ensures Valid()
      ensures this.provider == provider && this.answer == answer && calls == []
    {
      this.provider := provider;
      this.answer := answer;
      calls := [];
    }

    /** A Doku client, as the service's wiring creates it. */
    constructor Doku()
      ensures Valid()
      ensures provider == Provider.Doku && calls == []
    {
      provider := Provider.Doku;
      answer := DokuClient.Answer;
      calls := [];
    }

    method ProcessPayment(payment: Payment) returns (r: Reply)
      modifies this
      ensures calls == old(calls) + [Charge(ProcessPaymentOp, payment)]
      ensures r == answer(Charge(ProcessPaymentOp, payment))
    {
      calls := calls + [Charge(ProcessPaymentOp, payment)];
      r := answer(Charge(ProcessPaymentOp, payment));
    }

    method RefundPayment(paymentId: string, amount: real) returns (r: Reply)
      modifies this
      ensures calls == old(calls) + [Refund(paymentId, amount)]
      ensures r == answer(Refund(paymentId, amount))
    {
      calls := calls + [Refund(paymentId, amount)];
      r := answer(Refund(paymentId, amount));
    }

    method ChargeEWallet(payment: Payment) returns (r: Reply)
      modifies this
      ensures calls == old(calls) + [Charge(ChargeEWalletOp, payment)]
      ensures r == answer(Charge(ChargeEWalletOp, payment))
    {
      calls := calls + [Charge(ChargeEWalletOp, payment)];
      r := answer(Charge(ChargeEWalletOp, payment));
    }

    method CreateVirtualAccount(payment: Payment) returns (r: Reply)
      modifies this
      ensures calls == old(calls) + [Charge(CreateVirtualAccountOp, payment)]
      ensures r == answer(Charge(CreateVirtualAccountOp, payment))
    {
      calls := calls + [Charge(CreateVirtualAccountOp, payment)];
      r := answer(Charge(CreateVirtualAccountOp, payment));
    }

    method CreateQRCode(payment: Payment) returns (r: Reply)
      modifies this
      ensures calls == old(calls) + [Charge(CreateQRCodeOp, payment)]
      ensures r == answer(Charge(CreateQRCodeOp, payment))
    {
      calls := calls + [Charge(CreateQRCodeOp, payment)];
      r := answer(Charge(CreateQRCodeOp, payment));
    }
  }
}
