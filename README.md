# Payment service orchestration, modelled in Dafny

This project models the core of a Go payment service. A gRPC adapter checks
the required fields of a payment request and builds a payment record. A use
case routes the record to one operation of the Xendit or Stripe gateway,
chosen by its payment-method code (`XEN-OVO`, `XEN-BCA`, `XEN-QR`,
`XEN-DEFAULT`, `STP-DEFAULT`, …). When the gateway succeeds, the use case
saves the record with the gateway's reference as its id and status
`pending`. A refund looks the record up, goes to the gateway that serves its
payment method, and then marks the record `refunded`. Reads pass straight
through to the record store, which supports lookup by id and paged listing
by user.

Modules, one per source component:

- `Wrappers` (wrappers.dfy): `Option` and `Result`.
- `Domain` (domain.dfy): the payment record, its items, errors, gateway calls, and Go's `int32` conversion.
- `DokuClient` (doku.dfy): the Doku stub gateway.
- `Gateways` (gateway.dfy): the gateway interface. It is one class, `PaymentGateway`. The provider's reply to each call is a function given at construction, and a ghost log records every call, so "no call" and "exactly one call" can be stated.
- `Store` (store.dfy): the record store as a class over a `seq<Payment>`, plus the specification functions its methods are proved against. The database's filter, skip and limit and the Go loop that appends the cursor's results are modelled as one pass over the collection. The total is that pass's number of matches, which is what the separate count query returns.
- `UseCase` (usecase.dfy): the current use case, with its two routing tables.
- `LegacyUseCase` (legacy_usecase.dfy): the earlier revision of the use case. It declares the same Go type as the current one, so the two cannot coexist in Go; here it is a separate module.
- `GrpcHandler` (handler.dfy): request validation, record construction and response mappings.

On these points the model follows the code:

- Neither use-case revision selects a gateway from configuration or tries a fallback gateway, so neither is modelled. The record's `Gateway` field is never written.
- Refunds are routed by the record's payment method, not by its `Gateway` field.
- The current revision writes status `pending`; the earlier one writes `processed`. There is no `failed` status: a failed charge is returned as an error and nothing is saved.
- The record's id is replaced by the gateway's reference. With the Doku stub, that reference is the id the adapter generated (`UseCase.DokuKeepsCreatedId`).

Inconsistencies inside the source, and how the model resolves them:

- The adapter calls `GetPayment` (internal/interface/grpc/handler.go:101, :147). The use-case interface declares `GetPaymentStatus`. They are treated as one operation.
- The adapter reads `QrString` from the record (handler.go:80, :177), but the record type does not declare that field. The model adds it. Nothing in the service assigns it, so it is always empty (`GrpcHandler.PaymentHandler.ProcessPayment`).
- The Xendit client defines only `ProcessPayment` and `RefundPayment`. The current use case also calls its e-wallet, virtual-account and QR operations. The model gives every gateway all five operations of the interface.
- The service wiring (cmd/service/main.go:57) builds the use case from five arguments: the Stripe, Xendit and Doku clients, the repository and the configuration client. Both use-case revisions take three (internal/usecase/usecase.go:24, internal/usecase/payment_usecase.go:16). The model follows the two revisions, so the Doku client and the configuration client reach no use case.

## Model

| member | source | states |
|---|---|---|
| `Domain.ToInt32` | internal/interface/grpc/handler.go:125 | Go's `int32(x)` gives a value in the 32-bit range that is congruent to `x` modulo 2^32, and gives `x` itself whenever `x` is already in range |
| `DokuClient.Answer` | internal/infrastructure/paymentgateway/doku.go:19-42 | the Doku stub never fails; every charge operation answers with the record's own id; a refund answers with an empty refund id |
| `Gateways.PaymentGateway.constructor` | internal/infrastructure/paymentgateway/xendit.go:45-48 | a gateway is built from its provider's replies; a Xendit gateway must answer every refund with `""` and no error, as the stub does |
| `Gateways.PaymentGateway.Doku` | internal/infrastructure/paymentgateway/doku.go:13-17 | the Doku client is a gateway whose replies are the Doku stub's, with an empty call log |
| `Gateways.PaymentGateway.ProcessPayment` | internal/domain/repository.go:14 | a direct charge logs exactly one call and returns the provider's reply to it |
| `Gateways.PaymentGateway.RefundPayment` | internal/domain/repository.go:15 | a refund logs exactly one call and returns the provider's reply to it |
| `Gateways.PaymentGateway.ChargeEWallet` | internal/domain/repository.go:16 | an e-wallet charge logs exactly one call and returns the provider's reply to it |
| `Gateways.PaymentGateway.CreateVirtualAccount` | internal/domain/repository.go:17 | a virtual-account charge logs exactly one call and returns the provider's reply to it |
| `Gateways.PaymentGateway.CreateQRCode` | internal/domain/repository.go:18 | a QR charge logs exactly one call and returns the provider's reply to it |
| `Store.IndexOf` | internal/infrastructure/repository/payment_repository.go:31-33 | the id filter finds the first position holding that id, with no earlier match; it finds nothing exactly when no record has the id |
| `Store.Lookup` | internal/infrastructure/repository/payment_repository.go:29-38 | lookup by id yields a stored record with that id, or NotFound exactly when no record has it |
| `Store.WithStatus` | internal/infrastructure/repository/payment_repository.go:71-77 | a status update changes only the status of the first record with the id; every other record and field is unchanged, and an unknown id changes nothing |
| `Store.Matching` | internal/infrastructure/repository/payment_repository.go:42-61 | the user filter keeps exactly the user's records: every kept record belongs to the user and is stored, and every stored record of the user is kept; their order is fixed by `Store.MatchingSnoc` |
| `Store.Window` | internal/infrastructure/repository/payment_repository.go:43-45 | skip then limit: the page holds the elements after the skipped ones, in order, and at most `limit` of them |
| `Store.EveryMatchOnItsPage` | internal/infrastructure/repository/payment_repository.go:43-45 | paging loses nothing: the match at position j is on page j / size + 1, at position j mod size |
| `Store.SecondPageOfTwentyFive` | internal/infrastructure/repository/payment_repository.go:43-45 | with 25 matching records, page 2 of size 10 is the 11th to the 20th match |
| `Store.MatchingSnoc` | internal/infrastructure/repository/payment_repository.go:53-61 | appending a record extends only its own user's listing, at the end |
| `Store.ScanStep` | internal/infrastructure/repository/payment_repository.go:43-61 | reading one more record adds one to the user's count exactly when it is the user's, and appends it to the page exactly when it is the user's, the skip is used up and the page is not yet full |
| `Store.IndexOfSnoc` | internal/infrastructure/repository/payment_repository.go:23-27 | saving does not check for duplicate ids: after a save, a lookup that reads the records in the order they were saved still finds the older record with that id, and finds the new one only if none existed |
| `Store.WithStatusKeepsIndex` | internal/infrastructure/repository/payment_repository.go:71-77 | after a status update, a lookup by that id finds the same position |
| `Store.PaymentStore.constructor` | internal/infrastructure/repository/payment_repository.go:17-21 | the repository is built around the database client and keeps it; the model's store starts with no records |
| `Store.PaymentStore.Save` | internal/infrastructure/repository/payment_repository.go:23-27 | save appends exactly one record and leaves the existing ones unchanged |
| `Store.PaymentStore.FindIndex` | internal/infrastructure/repository/payment_repository.go:31-33 | the scan finds the position of the first record with the id, or none |
| `Store.PaymentStore.FindByID` | internal/infrastructure/repository/payment_repository.go:29-38 | returns the first stored record with the id, or NotFound exactly when none has it; the store is not modified |
| `Store.PaymentStore.FindByUserID` | internal/infrastructure/repository/payment_repository.go:40-69 | for page >= 1 and size >= 1, returns the user's records at positions (page-1)*size up to page*size-1, in store order, and the count of all the user's records; the page is no longer than the size or the count |
| `Store.PaymentStore.UpdateStatus` | internal/infrastructure/repository/payment_repository.go:71-77 | the new collection is the old one with the status of the first matching record set |
| `UseCase.ChargeRoute` | internal/usecase/usecase.go:36-49 | a code is routed exactly when it is one of the nine supported codes; XEN-* codes go to Xendit and STP-DEFAULT to Stripe; the e-wallet codes and only they use ChargeEWallet, the bank codes and only they use CreateVirtualAccount, and XEN-QR and only it uses CreateQRCode |
| `UseCase.RefundProvider` | internal/usecase/usecase.go:73-80 | a refund is routed exactly for the nine supported codes, to Xendit exactly for the XEN-* codes |
| `UseCase.RefundFollowsCharge` | internal/usecase/usecase.go:36-80 | a method is refundable exactly when it is chargeable, and through the same gateway |
| `UseCase.Settle` | internal/usecase/usecase.go:51-56 | a gateway error is returned as is; on success the record gets the gateway's reference as id and the new status, and no other field changes |
| `UseCase.PaymentUseCase.constructor` | internal/usecase/usecase.go:24-30 | the use case keeps the Stripe client, the Xendit client and the repository it is given, two distinct gateways each behaving as its provider does |
| `UseCase.ProcessOutcome` | internal/usecase/usecase.go:32-63 | unsupported methods fail with "unsupported payment method"; for a routed method, the result succeeds exactly when the routed gateway's reply to the routed charge does, a failure returns that reply's error unchanged, and a success carries the reply's reference as id, status pending, and no other field changed |
| `UseCase.RefundTarget` | internal/usecase/usecase.go:67-80 | an unknown id reaches no gateway; a stored record reaches the gateway its payment method's refund route names, and so a gateway is reached only for a supported method |
| `UseCase.RefundOutcome` | internal/usecase/usecase.go:65-92 | an unknown id fails with NotFound; a stored record with an unsupported method fails with "unsupported payment method"; otherwise the result is exactly the target gateway's reply to the refund of that id and amount, and a success needs such a gateway |
| `UseCase.RefundIgnoresStatus` | internal/usecase/usecase.go:82-91 | nothing guards against a second refund: the status is never consulted, so a refunded record is sent the same Refund call through the same gateway again; the outcomes coincide because the model takes each gateway's reply to be a fixed function of the call |
| `UseCase.DokuKeepsCreatedId` | internal/infrastructure/paymentgateway/doku.go:19-42 | in a hypothetical setup where the charge outcome is fed the Doku stub's replies (the use case itself holds only Stripe and Xendit gateways), every supported payment would keep the id it was created with and only become pending |
| `UseCase.PaymentUseCase.ProcessPayment` | internal/usecase/usecase.go:32-63 | exactly one call to the routed gateway operation (none for an unsupported method); on failure the error is returned and nothing is saved; on success the record with the reference as id and status pending is saved once and returned |
| `UseCase.PaymentUseCase.RefundPayment` | internal/usecase/usecase.go:65-92 | an unknown id or an unsupported method makes no gateway call; otherwise exactly one refund call to the method's gateway; only a successful refund marks the record refunded, and it returns the gateway's refund id; a Xendit refund always succeeds with an empty id |
| `UseCase.PaymentUseCase.GetPaymentStatus` | internal/usecase/usecase.go:94-100 | returns exactly the store's lookup by id and changes nothing |
| `UseCase.PaymentUseCase.ListPayments` | internal/usecase/usecase.go:102-108 | returns exactly the store's page and total and changes nothing |
| `LegacyUseCase.LegacyProvider` | internal/usecase/payment_usecase.go:28-35 | only "stripe" (to Stripe) and "xendit" (to Xendit) are routed |
| `LegacyUseCase.RevisionsShareNoCode` | internal/usecase/payment_usecase.go:28-35 | no payment-method code is accepted by both revisions of the use case |
| `LegacyUseCase.LegacyOutcome` | internal/usecase/payment_usecase.go:24-50 | unknown methods fail with "unsupported payment method"; for "stripe" or "xendit", the result succeeds exactly when that gateway's reply to ProcessPayment does, a failure returns that reply's error unchanged, and a success carries the reply's reference as id, status processed, and no other field changed |
| `LegacyUseCase.LegacyPaymentUseCase.constructor` | internal/usecase/payment_usecase.go:16-22 | the earlier use case keeps the repository and the two gateways it is given, with no condition on them: the same client may fill both slots, and either slot may hold any provider's client |
| `LegacyUseCase.LegacyPaymentUseCase.ProcessPayment` | internal/usecase/payment_usecase.go:24-50 | exactly one ProcessPayment call on the gateway in the slot the method names, and no other call, also when one client fills both slots (none for an unknown method); the result is the earlier outcome on the two slots' replies; a failure saves nothing; a success saves the processed record once |
| `LegacyUseCase.LegacyPaymentUseCase.RefundPayment` | internal/usecase/payment_usecase.go:52-55 | the refund always answers an empty refund id with no error, without calling a gateway or changing the store |
| `LegacyUseCase.LegacyPaymentUseCase.GetPaymentStatus` | internal/usecase/payment_usecase.go:57-64 | returns exactly the store's lookup by id and changes nothing |
| `LegacyUseCase.LegacyPaymentUseCase.ListPayments` | internal/usecase/payment_usecase.go:66-73 | returns exactly the store's page and total and changes nothing |
| `GrpcHandler.Validate` | internal/interface/grpc/handler.go:28-43 | no message exactly when user_id, amount, invoice_number, agent and items are all present; otherwise the message of the first missing field in that order |
| `GrpcHandler.NegativeAmountPasses` | internal/interface/grpc/handler.go:32-34 | only an amount of exactly zero is rejected: a negative amount passes validation |
| `GrpcHandler.DomainItems` | internal/interface/grpc/handler.go:45-52 | the items are converted one to one: same length, same order, name, quantity and price copied |
| `GrpcHandler.ConvertItems` | internal/interface/grpc/handler.go:45-52 | the conversion loop fills the preallocated slice with exactly the converted items |
| `GrpcHandler.ItemRoundTrip` | internal/interface/grpc/handler.go:153-160 | converting a stored item back to the wire, including the int32 cast of its quantity, gives back the item that came in |
| `GrpcHandler.MessageItems` | internal/interface/grpc/handler.go:153-160 | the detail loop converts each stored item to its wire form, same length and order |
| `GrpcHandler.NewPayment` | internal/interface/grpc/handler.go:54-67 | the built record copies every request field, has the generated id, and has an empty status, gateway and QR payload |
| `GrpcHandler.ListResponse` | internal/interface/grpc/handler.go:125-137 | one summary per payment, in the same order, and the total converted to int32 |
| `GrpcHandler.PaymentHandler.constructor` | internal/interface/grpc/handler.go:21-23 | the adapter keeps the use case it is given |
| `GrpcHandler.PaymentHandler.ProcessPayment` | internal/interface/grpc/handler.go:25-82 | a failed check returns its message with no use-case call, no gateway call and no save; otherwise the use case's error is returned unchanged, or its record is mapped to a pending response for the requested method with an empty QR payload |
| `GrpcHandler.PaymentHandler.RefundPayment` | internal/interface/grpc/handler.go:84-96 | no validation; the use case's error is returned unchanged; a success reports status refunded and the use case's refund id |
| `GrpcHandler.PaymentHandler.GetPaymentStatus` | internal/interface/grpc/handler.go:98-114 | reports the id and status of the first record with the requested id, with an empty error message, or the lookup's error |
| `GrpcHandler.PaymentHandler.ListPayments` | internal/interface/grpc/handler.go:116-142 | the response lists the user's page in order, one summary each, all of the requested user, with TotalCount the int32 of the user's total |
| `GrpcHandler.PaymentHandler.GetPaymentDetail` | internal/interface/grpc/handler.go:144-182 | succeeds exactly when a record with the requested id is stored, and then gives every field of the first such record with its items converted back one to one; otherwise NotFound |

## Left out

- `UseCase.PaymentUseCase.ProcessPayment`: the Go code writes the new id and status through the caller's `*Payment`. The model returns the updated record instead. The adapter uses only the returned record, so nothing observable is lost, but aliasing of that pointer is not modelled.
- `Store.PaymentStore.constructor`: the store starts empty. Records already in the database when the service starts are not modelled, but every operation's contract holds for any contents of `records`.
- Store failures are not modelled: driver and connection errors, BSON decode errors, and context cancellation. `Save` and `UpdateStatus` never fail here, so the use case's error paths after a failed save or status update (internal/usecase/usecase.go:58-60, :87-89) cannot happen in the model. `FindByID` fails only with NotFound.
- `Store.PaymentStore.FindByUserID` requires page >= 1 and pageSize >= 1. For other values the result depends on the database driver: a limit of 0 means "no limit", and a negative skip is rejected. The product `(page-1)*pageSize` is unbounded here. In Go it cannot overflow 64 bits, because both factors come from 32-bit request fields.
- The Stripe and Xendit SDK calls are left out, along with their API keys and the float-to-cents truncation. A gateway's reply is a function of the call, fixed when the gateway is built. The only provider behaviour built in is Xendit's refund stub and the Doku stub.
- Gateway selection from the configuration service, fallback to a second gateway, and the default-gateway setting are not modelled. Neither use case consults the configuration client.
- Amounts and prices are reals that are only compared with zero. Float64 rounding and NaN are not modelled. No check that the item totals equal the amount exists in the code, so none is modelled.
- The creation and update timestamps are not modelled, so `CreatedAt`/`UpdatedAt` are missing from the list and detail responses. The code never sets them.
- UUID generation is a parameter of `GrpcHandler.PaymentHandler.ProcessPayment`. Logging is left out.
- Queries read the collection in the order records were saved. MongoDB promises no order for a query without a sort, so this is an assumption of the model. It decides which record a lookup by id finds when ids repeat (`Store.IndexOf`, `Store.IndexOfSnoc`) and the order of a user's listing (`Store.Matching`).
- A gateway's reply is a fixed function of the call, so the model cannot express a provider that answers a repeated refund differently (`UseCase.RefundIgnoresStatus`).
- Concurrent requests are not modelled. Two refunds of the same record racing each other are out of scope.
- The REST webhook handler, the service wiring in cmd/service/main.go, the generated protobuf code, the Mongo connection helper, and the configuration client are not part of this model. The same goes for the duplicate record type in internal/domain/entity.go and the duplicate gateway interface in internal/usecase/payment_gateway.go.
