# Verified model of the order, payment and inventory services

This project models the three services of a small shop for spaceship parts, and proves what their
code keeps to when calls run concurrently, statements fail, rows come back in any order and charges
get lost on the way.

- **The payment protocol.** `OrderService.Pay` starts a payment, charges the order remotely, then
  finishes or resets it; `Cancel` competes with it. Nothing records who started a payment. The modules
  `PaymentProtocol`, `PaymentInvariant`, `PaymentSafety`, `ChargeConservation`, `PaymentProgress`,
  `MissedUpdate`, `PublicView` and `ProtocolWitnesses` describe any number of calls as a transition
  system over the orders table, the ledger and the calls' program points. A run is a list of states and
  actions; the environment picks the interleaving, the failing repository statements (before or after
  their effect) and the end of every charge (accepted, refused, committed but reported as failed, or
  still running and committed later or never). All theorems are about every run.
- **Order storage.** `MemoryRepositories` keeps one record per order, `PostgresRepositories` two tables.
  `RepositorySimulation` drives both with the same calls and shows that they answer alike;
  `OrderRebuild` shows that an order is rebuilt from its rows in any order, with wrapping int64 totals.
  `OrderServices` gives `Pay` and `Cancel` as sequential code over either repository and ties them to
  the protocol's steps.
- **Creating orders.** `Inventory` and `CreateOrders` compose the catalogue listing, the client's
  conversion, pricing and the store; `EndToEnd` follows an order to the client that reads it.
- **Generated code.** `RequiredFields`, `JsonObjects`, `OrderDtoCodec`, `CreateRequestCodec` and `OrderDtos` model
  the JSON codec (objects are unordered, as section 4 of RFC 8259 has it), its bit loop and the
  validation; `Router` models both generated routers against one path grammar.

Four statements one might expect are false of the code. For each the model has an input or a run that
shows it and the exact condition:

- An order is charged at most once, and only if it is paid: `ProtocolWitnesses.ChargedTwice` charges one
  twice and `ProtocolWitnesses.CancelledThenCharged` charges a cancelled one, both without a failing
  repository statement. `ChargeConservation.Conservation` counts the rows of every order exactly.
- An order leaves PAYMENT_PROCESSING in the end: `ProtocolWitnesses.StrandedByFailedFinish` leaves one
  there for good, charged and not paid. `PaymentProgress.StuckExactlyWhenStranded` has the condition.
- Over PostgreSQL, only an absent order is "not found": `Pay` and `Cancel` can answer so for an order that
  exists, because the update and the read after it are two statements.
  `ProtocolWitnesses.ExistingOrderNotFound` is the run, `MissedUpdate.PostgresAnswers` and
  `MissedUpdate.NotFoundNeedsReset` have the condition.
- Both repositories accept the same orders: PostgreSQL refuses an order that asks for one part twice (say,
  as hull and as engine), because the items' key is (order, part); the in-memory repository accepts it.
  `CreateOrders.SamePartTwice` is the input, `CreateOrders.CreateInPostgres` and
  `RepositorySimulation.CreateOnBoth` have the condition.

Assumptions, all stated in the model: a transaction UUID that PaymentService draws is not yet in the
ledger; the UUID of a new order is not nil and not yet taken; ledger rows come only from `Pay`; reading
the text of a UUID or an instant gives back what was written (`JsonObjects.Faithful`).

Statuses, methods and part types are text in the source. Each is modelled by its constants and one case
for any text but the constants' own, so the default branches remain and no text has two readings. The domain order and the repository record have the
same fields and share one datatype.

## Model

| member | source | states |
|---|---|---|
| PaymentInvariant.NextKeepsInv | order/internal/service/order/pay.go:14-61 | every step of every Pay, Cancel, charge and late commit keeps the invariant over all calls, rows and ledger entries that stands in for an ownership token |
| PaymentInvariant.RequestAccepted | payment/internal/service/payment/service.go:26-51 | the request of a valid Pay is never refused by PaymentService, so the client's InvalidArgument answer cannot reach a started payment |
| PaymentSafety.MutualExclusion | order/internal/service/order/pay.go:19-45 | while a call is between its start and its finish or reset the order is PAYMENT_PROCESSING, no other call is there for that order, and no step of another call changes it |
| PaymentSafety.OwnerWins | order/internal/service/order/pay.go:37-58 | FinishPayment and ResetPayment never miss: unless the statement fails, the finish leaves exactly the PAID row with its transaction and method, and the reset exactly the pending row; the conflict switch after the finish is unreachable, and with either store no call of a run without failing statements ever returns two joined errors |
| PaymentSafety.JoinedErrorsNeedFault | order/internal/service/order/pay.go:37-43 | whenever a call has returned two joined errors, the failing statement was its own reset |
| PaymentSafety.FirstStatementEffect | order/internal/repository/order/repository.go:245-271 | the first statement of Pay or Cancel on a pending order changes the status alone, of that order alone; on any other order nothing |
| PaymentSafety.FailedStatementAnswered | order/internal/service/order/pay.go:19-48 | a failing statement is answered with the repository's error, joined with the charge's after a failed charge; it had no effect or its full effect |
| PaymentSafety.CreatedAtForever | order/internal/repository/order/memory.go:49-131 | no step of any run changes the creation time of an order |
| PaymentSafety.InvalidMethodRefused | order/internal/service/order/pay.go:15-17 | a call is answered "invalid payment method" iff it is a Pay whose method has none of the four texts, and no statement of such a Pay changes anything |
| OrderStore.MissErrorTells | order/internal/service/order/pay.go:23-34 | which answer a missed update gives for every status and for an absent order |
| PaymentSafety.CrossServiceAgreement | order/internal/client/grpc/payment/v1/client.go:27-62 | an order has a transaction iff it has a method iff it is PAID, and then the ledger holds that transaction for that order with the same method text |
| PaymentSafety.FinalForever | order/internal/repository/order/memory.go:68-131 | orders never vanish, and a PAID or CANCELLED row never changes again |
| PaymentSafety.SuccessIsVisibleForever | order/internal/service/order/pay.go:45-60 | after Pay returned a transaction, every later state shows the order PAID with that transaction and that method |
| PaymentSafety.OneSuccessPerOrder | order/internal/service/order/pay.go:14-61 | over a whole run at most one Pay of an order succeeds |
| PaymentSafety.RefusalsStayTrue | order/internal/service/order/cancel.go:22-31 | a call that was told "already paid" or "cancelled" was told the truth, and it stays true |
| ChargeConservation.Conservation | order/internal/service/order/pay.go:36-48 | in every state the ledger rows of an order number [PAID] + [a call has charged and not finished] + charges committed but reported as failed + finishes that failed without effect |
| ChargeConservation.ChargedAtMostOnce | payment/internal/service/payment/service.go:36-51 | an order is charged at most once beyond those losses; with none, the only row of a paid order is its own transaction |
| ChargeConservation.StatementKeepsPaid | order/internal/repository/order/memory.go:82-90 | only a FinishPayment of the call holding the charge makes an order PAID, and no repository statement touches the ledger |
| ProtocolWitnesses.ChargedTwice | order/internal/client/grpc/payment/v1/client.go:32-39 | a run without repository failures in which an order is charged twice, because a committed charge was reported as failed |
| ProtocolWitnesses.CancelledThenCharged | order/internal/client/grpc/payment/v1/client.go:32-39 | a run without repository failures in which a cancelled order is charged, because the charge went on after the client had given up on it |
| PaymentProgress.WorkIsBounded | order/internal/service/order/pay.go:14-61 | no run takes more than five steps per call, whatever fails |
| PaymentProgress.NeverStuck | order/internal/service/order/pay.go:14-61 | a call that has not returned can always take its next step |
| PaymentProgress.StuckExactlyWhenStranded | order/internal/repository/order/repository.go:139-242 | an order is left in PAYMENT_PROCESSING with no call to settle it iff an earlier start took effect but failed, or a finish or reset failed before its effect; nothing frees it again |
| ProtocolWitnesses.StrandedByFailedFinish | order/internal/service/order/pay.go:45-48 | a run in which a failing FinishPayment leaves an order charged, unpaid and in PAYMENT_PROCESSING, and the next Pay is told that a payment is in progress |
| PaymentProgress.Quiescence | order/internal/repository/order/memory.go:96-111 | with no failing repository statement an order is PAYMENT_PROCESSING exactly while a call owns its payment, so never once all calls have returned |
| MissedUpdate.InMemoryAnswers | order/internal/repository/order/memory.go:49-66 | in memory the answer to the first statement tells the order's status exactly; "not found" only for absent orders |
| MissedUpdate.PostgresAnswers | order/internal/repository/order/repository.go:156-159 | in PostgreSQL the read after a missed update answers "not found" iff the order is absent or pending again; the other answers tell the status |
| MissedUpdate.InMemoryNotFound | order/internal/repository/order/memory.go:49-66 | every "not found" that any call of an in-memory run has answered came from its first statement, when the order was absent |
| MissedUpdate.NotFoundNeedsReset | order/internal/repository/order/repository.go:262-265 | every "not found" that any call of a PostgreSQL run has answered came from the read after its missed first statement; if the order existed at that statement, another call reset it before the read |
| ProtocolWitnesses.ExistingOrderNotFound | order/internal/service/order/cancel.go:22-31 | a run in which Cancel answers "not found" for an order that exists throughout |
| PublicView.PublicRefinement | order/internal/converter/order.go:77-86 | seen through the public status, every internal step is invisible, adds a pending order, or settles a pending one; "PAID" and "CANCELLED" are shown exactly for the orders that are |
| PublicView.PublicStatusNeverGoesBack | order/internal/converter/order.go:77-86 | in any run no observer sees a public status go back or change twice |
| PublicView.ReachableOrdersValidate | shared/pkg/openapi/order/v1/oas_validators_gen.go:10-49 | every order of every reachable state converts to an object that passes validation; it shows "PAID" iff it is Paid iff it shows a transaction iff it shows a method, "CANCELLED" iff it is Cancelled, else "PENDING_PAYMENT" |
| PublicView.CancellationShownForever | order/internal/converter/order.go:77-86 | once Cancel has succeeded, every later read shows "CANCELLED" and no payment |
| PublicView.PaymentShownForever | order/internal/converter/order.go:44-74 | once a Pay for the method a client named as `text` has succeeded, the ledger holds its transaction under `text`, and every later read shows "PAID", that transaction and `text` |
| OrderServices.PayAloneIsProtocol | order/internal/service/order/pay.go:14-61 | the protocol's run of one Pay without interference, over either store, ends as the closed form says |
| OrderServices.CancelAloneIsProtocol | order/internal/service/order/cancel.go:13-32 | the same for Cancel |
| OrderServices.MemoryService.Pay | order/internal/service/order/pay.go:14-61 | over the in-memory repository: new records, ledger and answer are those of the lone call; a refused Pay leaves the records as they were |
| OrderServices.MemoryService.Cancel | order/internal/service/order/cancel.go:13-32 | over the in-memory repository: records and answer are those of the lone call |
| OrderServices.PostgresService.Pay | order/internal/service/order/pay.go:14-61 | over PostgreSQL: rows, ledger and answer are those of the lone call, and the items are untouched |
| OrderServices.PostgresService.Cancel | order/internal/service/order/cancel.go:13-32 | over PostgreSQL: rows and answer are those of the lone call |
| OrderServices.ChargeOrder | order/internal/client/grpc/payment/v1/client.go:27-47 | what the client reports and what the ledger gains, for each way the remote call can end |
| PaymentLedger.PaymentService.PayOrder | payment/internal/service/payment/service.go:26-59 | accepts exactly non-nil orders with a valid method, appends one row under the drawn transaction, and leaves the ledger alone on any error |
| PaymentLedger.TranslationKeepsMethod | payment/internal/api/payment/v1/pay.go:29-42 | the method translated order model, proto, payment model is valid iff it was, which is for four texts only; goes by its own name on the wire, keeps its text, which no other method has, and is translated injectively |
| MemoryRepositories.MemoryRepository.Create | order/internal/repository/order/memory.go:27-33 | stores the record under its UUID |
| MemoryRepositories.MemoryRepository.Get | order/internal/repository/order/memory.go:36-46 | the rebuilt order, or not found |
| MemoryRepositories.MemoryRepository.StartPayment | order/internal/repository/order/memory.go:49-66 | is the guarded start update on the rows, touches nothing else, and says whether it changed the order |
| MemoryRepositories.MemoryRepository.FinishPayment | order/internal/repository/order/memory.go:69-93 | is the guarded finish update on the rows, touches nothing else, and says whether it changed the order |
| MemoryRepositories.MemoryRepository.ResetPayment | order/internal/repository/order/memory.go:96-111 | is the guarded reset update; an error only for absent orders |
| MemoryRepositories.MemoryRepository.Cancel | order/internal/repository/order/memory.go:114-131 | is the guarded cancel update on the rows, touches nothing else, and says whether it changed the order |
| PostgresRepositories.PostgresRepository.Insert | order/internal/repository/order/repository.go:35-73 | succeeds iff the order is new, its parts are distinct and no statement fails; keeps every item referring to an order |
| PostgresRepositories.PostgresRepository.Create | order/internal/service/order/create.go:100-104 | all or nothing: on success exactly the order and all its items are added, on any error both tables are as before |
| PostgresRepositories.PostgresRepository.SelectItems | order/internal/repository/order/repository.go:112-133 | lists every item row of the order exactly once, in any order |
| PostgresRepositories.PostgresRepository.Get | order/internal/repository/order/repository.go:76-136 | the order rebuilt from its row and its items in any order, or not found |
| PostgresRepositories.PostgresRepository.StartPayment | order/internal/repository/order/repository.go:139-165 | is the guarded start update on the table; answers in part when changed, in full when not |
| PostgresRepositories.PostgresRepository.FinishPayment | order/internal/repository/order/repository.go:168-203 | is the guarded finish update on the table; answers in part when changed, in full when not |
| PostgresRepositories.PostgresRepository.ResetPayment | order/internal/repository/order/repository.go:206-242 | is the guarded reset update on the table; an error only for absent orders |
| PostgresRepositories.PostgresRepository.Cancel | order/internal/repository/order/repository.go:245-271 | is the guarded cancel update on the table; answers in part when changed, in full when not |
| PostgresRepositories.InsertedLists | order/internal/repository/order/repository.go:55-70 | the item loop stores exactly the order's items when its parts are distinct |
| PostgresRepositories.KeyTaken | migrations/order/20260513193909_create_order_items_table.sql:2-8 | the primary key refuses the next item iff an earlier item of the order names the same part |
| RepositorySimulation.ReadsAgree | order/internal/repository/order/repository.go:76-136 | whatever order the item rows come in, both repositories read the same order up to item order |
| RepositorySimulation.RowChangesSimulate | order/internal/repository/order/repository.go:139-271 | any change of rows keeps the tables and the records in step |
| RepositorySimulation.CreateSimulates | order/internal/repository/order/repository.go:35-73 | a new order with distinct parts and types keeps the tables and the records in step |
| RepositorySimulation.OrderWithoutItems | order/internal/repository/converter/order.go:32-40 | an order without items reads the same from both iff it had no parts and no total |
| RepositorySimulation.CreateOnBoth | order/internal/repository/order/memory.go:27-33 | PostgreSQL accepts a new order iff it is fresh and its parts are distinct; then both stay in step |
| RepositorySimulation.GetOnBoth | order/internal/repository/order/memory.go:36-46 | same error, or same order up to item order |
| RepositorySimulation.StartOnBoth | order/internal/repository/order/repository.go:139-165 | same flag, same error, same fields the service reads; both stay in step |
| RepositorySimulation.FinishOnBoth | order/internal/repository/order/repository.go:168-203 | same flag, same error, same fields the service reads; both stay in step |
| RepositorySimulation.ResetOnBoth | order/internal/repository/order/repository.go:206-242 | same error; both stay in step |
| RepositorySimulation.CancelOnBoth | order/internal/repository/order/repository.go:245-271 | same flag, same error, same fields the service reads; both stay in step |
| OrderRebuild.OrderToModel | order/internal/repository/converter/order.go:11-60 | with items, each part is that of the last item of its type and the total is the wrapped sum; without, the record as it is |
| OrderRebuild.PartOfIsLast | order/internal/repository/converter/order.go:45-56 | of several items of one type the last one gives the part |
| OrderRebuild.WrapIsCongruent | order/internal/repository/converter/order.go:43-43 | the total differs from the mathematical sum by a multiple of 2^64 |
| OrderRebuild.RebuiltFromPermutation | order/internal/repository/converter/order.go:42-57 | rebuilding does not depend on the order of the rows when no type names two parts |
| OrderRebuild.CreatedOrderReadsBack | order/internal/repository/converter/order.go:32-60 | any permutation of a created order's items gives back the parts asked for and the total Create returned, even after overflow |
| OrderRebuild.TotalIsTrueSum | order/internal/service/order/create.go:66-81 | with every price in [0, 2^61) the total is the true sum |
| Inventory.PartRepository.List | inventory/internal/repository/part/list.go:16-79 | with UUIDs, the named parts in the order given iff all exist; without, exactly the parts of the type, each once, in dictionary order of their names |
| Inventory.NameLeqIsPrecedes | inventory/internal/repository/part/list.go:74-76 | the comparison puts a name first iff it begins the other or is smaller where they first differ |
| Inventory.ListParts | inventory/internal/service/part/service.go:43-64 | a nil UUID is refused before the catalogue is read; otherwise the named parts in order or not found, or the listing by type when no UUID is given |
| Inventory.PartsToModel | order/internal/client/grpc/inventory/v1/converter/inventory.go:11-27 | the result has exactly the parts whose UUID parses, each converted, in ascending order of position |
| Inventory.FetchParts | order/internal/client/grpc/inventory/v1/client.go:27-43 | the parts asked for in order at catalogue price and stock (all parts by name, if none are asked for), or invalid UUID, or not found, or the wrapped error of a failed call |
| CreateOrders.PriceItems | order/internal/service/order/create.go:57-81 | for any parts the client returns: out of stock iff one has none, else not found iff one is missing, else each item at its price and the wrapped total |
| CreateOrders.BuildOrder | order/internal/service/order/create.go:14-98 | invalid UUID iff a given one is nil, then the wrapped error iff the inventory call fails, then not found iff one is not in the catalogue, then out of stock iff one has none; otherwise the order asked for at catalogue prices |
| CreateOrders.TotalIsCatalogueSum | order/internal/service/order/create.go:66-81 | the total of a created order is the sum of the catalogue prices of the parts asked for, wrapped if it does not fit |
| CreateOrders.CreateInMemory | order/internal/service/order/create.go:14-110 | succeeds iff every UUID given is non-nil, in the catalogue and in stock and the inventory answers; otherwise the error says which of these failed first, and nothing is stored |
| CreateOrders.CreateInPostgres | order/internal/service/order/create.go:14-110 | with a working store succeeds iff, besides, no part is asked for twice; adds the order and its items and keeps all other rows; on any error, which says what failed first, the tables are unchanged |
| CreateOrders.SamePartTwice | migrations/order/20260513193909_create_order_items_table.sql:7-7 | one part as hull and as engine: accepted in memory, refused by PostgreSQL |
| CreateOrders.CreatedOrderInTables | order/internal/repository/converter/order.go:32-60 | a created order reads back from the tables with the parts asked for and the total returned, in any row order |
| EndToEnd.CreatedOrderReachesClient | order/internal/api/order/v1/get.go:14-31 | the client decodes the parts asked for, the wrapped sum of their catalogue prices, the payment in the row with the method's own text, and "PAID", "CANCELLED" or "PENDING_PAYMENT" as the row has it |
| EndToEnd.RequestedPartsComeBack | order/internal/api/order/v1/create.go:12-22 | the parts a client sends in a create request are the parts it later reads, where unset and null both mean no part |
| EndToEnd.PaymentReachesClient | order/internal/api/order/v1/pay.go:11-20 | after a successful Pay for the method named `text`, a client decodes "PAID", the transaction and `text` in every later state |
| EndToEnd.CancellationReachesClient | order/internal/api/order/v1/cancel.go:10-16 | after a successful Cancel, a client decodes "CANCELLED" and no payment in every later state |
| RequiredFields.NameMissing | shared/pkg/openapi/order/v1/oas_json_gen.go:1160-1176 | the inner loop names every set bit once, lowest first, and ends with the remainder zero |
| RequiredFields.MissingFields | shared/pkg/openapi/order/v1/oas_json_gen.go:1150-1178 | the failures of all words in order |
| RequiredFields.MissingBitsSpec | shared/pkg/openapi/order/v1/oas_json_gen.go:1155-1160 | the listed bits are exactly the positions where the mask has the digit 1 and the bit set 0, strictly ascending, for every mask and bit set |
| RequiredFields.AllFailuresNamed | shared/pkg/openapi/order/v1/oas_json_gen.go:1163-1169 | the numeric-name fallback is never taken when the masks stay inside the name table |
| OrderDtoCodec.Decode | shared/pkg/openapi/order/v1/oas_json_gen.go:1024-1184 | for every field list: the first field whose literal key does not take its value, else the absent ones of the six required keys in order, else the object whose members are what the library reads in the last field of each key |
| OrderDtoCodec.MeaningExplained | shared/pkg/openapi/order/v1/oas_json_gen.go:1030-1146 | the same as a law of decoding, in literal keys and library functions |
| OrderDtoCodec.ReadableIsGood | shared/pkg/openapi/order/v1/oas_json_gen.go:901-936 | which JSON values each of the ten keys takes |
| OrderDtoCodec.EncodedRequired | shared/pkg/openapi/order/v1/oas_json_gen.go:959-1008 | the six required keys are always written, with the text or number of their member |
| OrderDtoCodec.EncodedOptionals | shared/pkg/openapi/order/v1/oas_json_gen.go:959-1008 | an optional is absent if not set, null if null, else its text |
| OrderDtoCodec.MissingAreNames | shared/pkg/openapi/order/v1/oas_json_gen.go:1150-1178 | with the masks used, the bit loop reports by name exactly the required keys that never appeared |
| OrderDtoCodec.DecodesIffComplete | shared/pkg/openapi/order/v1/oas_json_gen.go:1179-1183 | decode accepts iff every field of the ten keys has a value its key takes and the six required keys appeared |
| OrderDtoCodec.Encode | shared/pkg/openapi/order/v1/oas_json_gen.go:959-1008 | one field per key in order, optionals only if set, no key twice |
| OrderDtoCodec.EncodeThenDecode | shared/pkg/openapi/order/v1/oas_json_gen.go:901-936 | decoding an encoded object always succeeds and gives the canonical form of its optionals |
| OrderDtoCodec.RoundTrip | shared/pkg/openapi/order/v1/oas_json_gen.go:952-1184 | decode after encode is the identity exactly on canonical objects |
| OrderDtoCodec.ConvertedOrderRoundTrip | order/internal/converter/order.go:9-42 | every object made from an order round trips |
| OrderDtoCodec.FieldOrderIsIrrelevant | shared/pkg/openapi/order/v1/oas_json_gen.go:1030-1146 | permuting fields whose known keys are single-valued does not change the outcome |
| OrderDtoCodec.UnknownKeysAreSkipped | shared/pkg/openapi/order/v1/oas_json_gen.go:1142-1144 | a field with an unknown key may stand anywhere and hold anything: the outcome is the same, down to the key an error names |
| CreateRequestCodec.DecodeRequest | shared/pkg/openapi/order/v1/oas_json_gen.go:403-496 | for every field list: the first field of the four literal keys that is no readable UUID (nor null, for shield and weapon), else the absent ones of hull and engine, else the request whose members are what the last fields say |
| CreateRequestCodec.RequestAcceptedIff | shared/pkg/openapi/order/v1/oas_json_gen.go:403-496 | a request is accepted iff hull_uuid and engine_uuid are there and every field of the four keys can be read |
| CreateRequestCodec.EncodeRequest | shared/pkg/openapi/order/v1/oas_json_gen.go:372-393 | one field per key in order, optionals only if set |
| CreateRequestCodec.RequestRoundTrip | shared/pkg/openapi/order/v1/oas_json_gen.go:365-496 | an encoded request decodes, and to itself exactly when its optionals are canonical |
| CreateRequestCodec.RequestOrderIsIrrelevant | shared/pkg/openapi/order/v1/oas_json_gen.go:409-461 | permuting the fields does not change the outcome if none of the four keys has two values; skipped keys may repeat with any values |
| CreateRequestCodec.OtherKeysAreSkipped | shared/pkg/openapi/order/v1/oas_json_gen.go:457-461 | a field with any key but the four may stand anywhere and hold anything, with the same outcome |
| OrderDtos.Validate | shared/pkg/openapi/order/v1/oas_validators_gen.go:10-62 | reports the method iff it is set and not one of the four texts, the status iff it is not one of the three |
| OrderDtos.ConvertedOrderIsValid | order/internal/converter/order.go:9-42 | an order converts to a valid object iff its method, if any, is one of the four; optionals come out canonical |
| OrderDtos.MethodRoundTrip | order/internal/converter/order.go:45-74 | the method a client names keeps its text on the way to Pay and back, is accepted by Pay iff it is one of the four texts, and both conversions are inverse on those |
| Router.ServeHttp | shared/pkg/openapi/order/v1/oas_router_gen.go:37-195 | for every HTTP method and path: the handler of the operation asked for, "not allowed" naming GET or POST if the path is an operation's but the HTTP method is not, "not found" iff the path is no operation's |
| Router.FindPath | shared/pkg/openapi/order/v1/oas_router_gen.go:248-406 | the operation id, path pattern and argument of the operation asked for, spelled out for all four, and nothing otherwise |
| Router.Unambiguous | shared/pkg/openapi/order/v1/oas_router_gen.go:93-100 | no path has two readings |
| Router.HandledIffMatch | shared/pkg/openapi/order/v1/oas_router_gen.go:54-194 | a handler runs iff the path is the prefix plus an instance of its template with a slash-free id and the HTTP method is the operation's own, spelled out for all four |
| Router.RoutersAgree | shared/pkg/openapi/order/v1/oas_router_gen.go:248-406 | FindPath names an operation and argument iff ServeHTTP calls that handler with it, which is iff the request asks for it |
| Router.ClientPathMatches | shared/pkg/openapi/order/v1/oas_client_gen.go:142-165 | every path the client builds matches its own operation and id and nothing else |
| Router.ClientReachesHandler | shared/pkg/openapi/order/v1/oas_client_gen.go:371-429 | a client request, with the HTTP method the client sends, is served by its own operation with its own id |

## Left out

- Process wiring: main programs, environment, listeners, keepalive and shutdown do no more than start the services.
- gRPC and protobuf plumbing, telemetry, HTTP headers, content types and error-code tables.
- The bytes of JSON, the text of UUIDs and instants, percent-escaping: objects are field lists, texts go through an assumed faithful codec, paths have no raw form.
- SQL text, the driver and the transaction manager: tables are maps, a transaction is saved and put back.
- Failing statements of the PostgreSQL repository other than the inserts of Create are choices of the protocol model, not parameters of the repository class.
- The failure of the random source for an order's UUID, which ends Create before anything is stored.
- `updated_at`, log lines, error message texts and the precision of timestamps.
- PaymentService called by anyone but Pay: it may add ledger rows freely.
- Liveness under failing repository statements: a stranded order stays in PAYMENT_PROCESSING, as `PaymentProgress.StuckExactlyWhenStranded` says.
- Inventory.SortByName: stands for the library sort; the order of parts with equal names is left open.
- The other OpenAPI objects (errors, responses, the pay request) are encoded and decoded the same way.
- PartsToModel's skipped entries do not occur behind InventoryService, whose UUID texts all parse.
