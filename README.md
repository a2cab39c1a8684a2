# Coffee-hut saga steps: classification and dual-output routing

This project models the deterministic core of the coffee-hut choreography
saga (order, payment, preparation, delivery). Each step with a binary
outcome asks a remote status check one yes/no question per request, turns
the answer into exactly one of two event types, and pushes each event into
one of two buffered sinks (`tryEmitNext`). Both sinks are completed when the
request stream completes (`tryEmitComplete`). The order and payment steps
also map stored orders and payments one-to-one to events. The mock status
server used by the tests answers through a path-matching dispatcher with
scripted responses; it is modelled as well.

Modules, one per source file, plus the shared `Wrappers`, `Streams` and `Routing` modules:

- `BaristaService`, `DeliveryService`, `PaymentService`: the step services,
  as functions of the request and of the oracles. An oracle (status check,
  store lookup, payment gateway) is a function-typed parameter
  `string -> Option<X>`. `None` is an empty reply.
- `Routing`: the generic dual-output router. Class `DualSink<R, S, F>` holds
  two `seq` buffers, two completion flags and a ghost record of the results
  received. `OnNext` appends to exactly one buffer; `OnComplete` completes
  both. Its invariant ties the buffers to the specification functions
  `Successes` and `Failures`. `Route` drives a fresh pair of sinks over an
  already-ordered sequence of results.
- `BaristaApplication`, `DeliveryApplication`, `PaymentApplication`: the
  three classify functions and the thin bindings of `Route`. The barista and
  delivery steps use `concatMap`, so their results follow request order.
  `completePayment` uses `flatMap`, so its input is the confirmations in
  arrival order.
- `OrderApplication` and the map-only parts of `PaymentApplication`: one event
  per stored or found record (`Streams.MapSeq`).
- `Dispatcher`: classes `PathConfig` and `PathMatchingDispatcher`. Their
  abstract state is a sequence of `Entry(pattern, responses)`. The ghost
  functions `Respond` and `RespondTimes` specify one request and a series of
  requests. Path matching is the parameter `matches(pattern, path)`.

## Notes

Facts about the code that shape the model:

- No step waits for both outputs to be attached. The upstream is connected
  on the first subscription of either output.
- No error is forwarded to either sink: there is no error handler, so no sink
  is ever errored.
- Within one output, events of the barista and delivery steps follow request
  order (`concatMap`), not completion order.
- A request whose status check replies with an empty body yields no event on
  either output; the other requests' events keep their order.

## Model

| member | source | states |
|---|---|---|
| `Streams.MapSeq` | src/main/kotlin/com/github/harshadnawathe/coffeehut/workflow/order/OrderApplication.kt:36-38 | A `map` stage yields exactly one output per input, in input order, each the image of the input at the same position |
| `Streams.ConcatMap` | src/main/kotlin/com/github/harshadnawathe/coffeehut/workflow/barista/BaristaApplication.kt:34-36 | `concatMap` over single-valued replies yields at most one value per request; when every reply is present it yields exactly the replies, in request order |
| `Streams.ConcatMapOne` | src/main/kotlin/com/github/harshadnawathe/coffeehut/workflow/barista/BaristaApplication.kt:34-36 | A single request contributes its reply's value, or nothing when the reply is empty |
| `Streams.ConcatMapAppend` | src/main/kotlin/com/github/harshadnawathe/coffeehut/workflow/delivery/DeliveryApplication.kt:31-33 | `concatMap` processes requests one after another: the values of earlier requests precede those of later ones |
| `Streams.MapSeqAppend` | src/main/kotlin/com/github/harshadnawathe/coffeehut/workflow/payment/PaymentApplication.kt:47-49 | A `map` stage commutes with concatenation of its input |
| `Routing.RoutedCount` | src/main/kotlin/com/github/harshadnawathe/coffeehut/workflow/payment/PaymentApplication.kt:60-75 | Complementary filters make routing total and exclusive: the two outputs together hold exactly one event per result |
| `Routing.RoutedOne` | src/main/kotlin/com/github/harshadnawathe/coffeehut/workflow/delivery/DeliveryApplication.kt:36-43 | A single result reaches the output its tag names and leaves the other output empty |
| `Routing.RoutedAppend` | src/main/kotlin/com/github/harshadnawathe/coffeehut/workflow/barista/BaristaApplication.kt:44-54 | Each output's events follow the order in which results arrive: later results land after earlier ones on both outputs |
| `Routing.RoutedAt` | src/main/kotlin/com/github/harshadnawathe/coffeehut/workflow/barista/BaristaApplication.kt:44-54 | The event of the i-th result sits on its own output right after the events of the results before it, and the other output does not advance for it |
| `Routing.RoutedFrom` | src/main/kotlin/com/github/harshadnawathe/coffeehut/workflow/delivery/DeliveryApplication.kt:36-43 | Every event on either output is the classification of some received result |
| `Routing.DualSink.constructor` | src/main/kotlin/com/github/harshadnawathe/coffeehut/workflow/barista/BaristaApplication.kt:43-50 | Two fresh unicast buffered sinks: both buffers empty, neither completed |
| `Routing.DualSink.OnNext` | src/main/kotlin/com/github/harshadnawathe/coffeehut/workflow/payment/PaymentApplication.kt:59-72 | A result's event is appended to exactly one buffer, the other is unchanged; a completed sink accepts nothing; the invariant linking buffers to received results is kept |
| `Routing.DualSink.OnComplete` | src/main/kotlin/com/github/harshadnawathe/coffeehut/workflow/delivery/DeliveryApplication.kt:38-43 | Input completion completes both sinks together and leaves both buffers unchanged |
| `Routing.Route` | src/main/kotlin/com/github/harshadnawathe/coffeehut/workflow/payment/PaymentApplication.kt:55-75 | Feeding results then completing leaves exactly the success events and the failure events of the results in the two buffers, in arrival order, and both sinks completed |
| `BaristaService.PrepareOrder` | src/main/kotlin/com/github/harshadnawathe/coffeehut/domain/barista/BaristaService.kt:29-38 | A reply exists iff the check answers for the request's order id; true gives `Beverage` with the request's order id, beverage and customer name, false gives `NoBeverage` with the order id |
| `BaristaService.PrepareOrderAsksAboutOrderId` | src/main/kotlin/com/github/harshadnawathe/coffeehut/domain/barista/BaristaService.kt:30 | The check is consulted about the request's order id only |
| `BaristaApplication.Classify` | src/main/kotlin/com/github/harshadnawathe/coffeehut/workflow/barista/BaristaApplication.kt:37-40 | A `Beverage` becomes a success `OrderPreparedEvent` with its three fields; a `NoBeverage` becomes a failure `OrderPreparationFailedEvent` with its order id |
| `BaristaApplication.PrepareOrder` | src/main/kotlin/com/github/harshadnawathe/coffeehut/workflow/barista/BaristaApplication.kt:31-66 | The prepared and failed buffers hold the routed events of the preparation results in request order, and both are completed |
| `BaristaApplication.PreparedWhenCheckSucceeds` | src/test/kotlin/com/github/harshadnawathe/coffeehut/workflow/barista/BaristaApplicationTest.kt:58-80 | A request answered true yields one prepared event carrying its fields and no failure event |
| `BaristaApplication.FailedWhenCheckFails` | src/test/kotlin/com/github/harshadnawathe/coffeehut/workflow/barista/BaristaApplicationTest.kt:82-100 | A request answered false yields one failure event carrying its order id and no prepared event |
| `BaristaApplication.OneEventPerAnsweredRequest` | src/main/kotlin/com/github/harshadnawathe/coffeehut/workflow/barista/BaristaApplication.kt:34-54 | When every check answers, the two outputs together hold one event per request |
| `BaristaApplication.EventsFollowRequestOrder` | src/main/kotlin/com/github/harshadnawathe/coffeehut/workflow/barista/BaristaApplication.kt:34-36 | The events of earlier requests precede those of later requests on each output |
| `BaristaApplication.UnansweredRequestIsDropped` | src/main/kotlin/com/github/harshadnawathe/coffeehut/workflow/barista/BaristaApplication.kt:34-36 | A request whose check replies empty yields no event on either output; the outputs equal those of the stream without it |
| `DeliveryService.ServeOrder` | src/main/kotlin/com/github/harshadnawathe/coffeehut/domain/delivery/DeliveryService.kt:30-35 | A reply exists iff the check answers; it carries the request's order id, beverage and customer name, even on failure, and `isSuccess` equals the answer |
| `DeliveryService.ServeOrderAsksAboutOrderId` | src/main/kotlin/com/github/harshadnawathe/coffeehut/domain/delivery/DeliveryService.kt:31 | The check is consulted about the request's order id only |
| `DeliveryApplication.Classify` | src/main/kotlin/com/github/harshadnawathe/coffeehut/workflow/delivery/DeliveryApplication.kt:36-42 | Success exactly when `isSuccess`: a served event with the order id; otherwise a spilt event with order id, beverage and customer name |
| `DeliveryApplication.ServeOrder` | src/main/kotlin/com/github/harshadnawathe/coffeehut/workflow/delivery/DeliveryApplication.kt:29-55 | The served and spilt buffers hold the routed events of the serve results in request order, and both are completed |
| `DeliveryApplication.SpiltThenServed` | src/main/kotlin/com/github/harshadnawathe/coffeehut/workflow/delivery/DeliveryApplication.kt:31-43 | Two requests for distinct orders answered false then true yield a spilt event for the first, keeping its beverage and customer, and a served event for the second |
| `DeliveryApplication.OneEventPerAnsweredRequest` | src/main/kotlin/com/github/harshadnawathe/coffeehut/workflow/delivery/DeliveryApplication.kt:31-43 | When every check answers, the two outputs together hold one event per request |
| `DeliveryApplication.EventsFollowRequestOrder` | src/main/kotlin/com/github/harshadnawathe/coffeehut/workflow/delivery/DeliveryApplication.kt:31-33 | The events of earlier requests precede those of later requests on each output |
| `DeliveryApplication.UnansweredRequestIsDropped` | src/main/kotlin/com/github/harshadnawathe/coffeehut/workflow/delivery/DeliveryApplication.kt:31-33 | A request whose check replies empty yields no event on either output; the outputs equal those of the stream without it |
| `PaymentService.CreateNew` | src/main/kotlin/com/github/harshadnawathe/coffeehut/domain/payment/PaymentService.kt:49-52 | The saved payment carries the request's order id, the store-assigned id, and an amount equal to the beverage name's length in UTF-16 code units |
| `PaymentService.Utf16LengthOfBmp` | src/main/kotlin/com/github/harshadnawathe/coffeehut/domain/payment/PaymentService.kt:50 | For names made of Basic Multilingual Plane characters the amount is the character count |
| `PaymentService.Utf16LengthBounds` | src/main/kotlin/com/github/harshadnawathe/coffeehut/domain/payment/PaymentService.kt:50 | Each character adds one or two to the amount |
| `PaymentService.AmountExamples` | src/test/kotlin/com/github/harshadnawathe/coffeehut/workflow/payment/PaymentApplicationTest.kt:62-74 | "some-beverage" gives amount 13; one character outside the Basic Multilingual Plane gives 2 |
| `PaymentService.Complete` | src/main/kotlin/com/github/harshadnawathe/coffeehut/domain/payment/PaymentService.kt:54-60 | A confirmation exists iff both the stored payment and the gateway reply exist for the request's payment id; its ids come from the stored payment and its `isSuccess` from the gateway |
| `PaymentService.Refund` | src/main/kotlin/com/github/harshadnawathe/coffeehut/domain/payment/PaymentService.kt:62-67 | A refund exists iff a payment is stored for the order; it carries that payment's order id, id and amount |
| `PaymentService.CompleteIgnoresAmount` | src/main/kotlin/com/github/harshadnawathe/coffeehut/domain/payment/PaymentService.kt:54-59 | The amount in a completion request does not affect the outcome |
| `PaymentService.CompleteAsksAboutPaymentId` | src/main/kotlin/com/github/harshadnawathe/coffeehut/domain/payment/PaymentService.kt:55-56 | The store and the gateway are consulted about the request's payment id only |
| `PaymentService.CompleteAfterCreate` | src/test/kotlin/com/github/harshadnawathe/coffeehut/workflow/payment/PaymentApplicationTest.kt:76-112 | Completing a created and stored payment confirms that payment id and its order, whatever id the gateway echoes |
| `PaymentService.RefundAfterCreate` | src/test/kotlin/com/github/harshadnawathe/coffeehut/workflow/payment/PaymentApplicationTest.kt:152-182 | Refunding the order of a created payment returns that payment's id and amount |
| `PaymentApplication.InitiatePayment` | src/main/kotlin/com/github/harshadnawathe/coffeehut/workflow/payment/PaymentApplication.kt:43-50 | One `PaymentInitiatedEvent` per saved payment, carrying its id, order id and amount |
| `PaymentApplication.RefundPayment` | src/main/kotlin/com/github/harshadnawathe/coffeehut/workflow/payment/PaymentApplication.kt:90-94 | One `PaymentRefundedEvent` per refund confirmation, carrying its payment id, order id and amount |
| `PaymentApplication.Classify` | src/main/kotlin/com/github/harshadnawathe/coffeehut/workflow/payment/PaymentApplication.kt:60-71 | Success exactly when `isSuccess`; both event kinds carry the confirmation's payment id and order id |
| `PaymentApplication.CompletePayment` | src/main/kotlin/com/github/harshadnawathe/coffeehut/workflow/payment/PaymentApplication.kt:53-87 | The completed and failed buffers hold the routed events of the confirmations in arrival order, and both are completed |
| `PaymentApplication.CompletionRoutedAt` | src/main/kotlin/com/github/harshadnawathe/coffeehut/workflow/payment/PaymentApplication.kt:60-71 | Each confirmation's event lands on exactly one output, right after the events of earlier confirmations |
| `PaymentApplication.OneEventPerConfirmation` | src/test/kotlin/com/github/harshadnawathe/coffeehut/workflow/payment/PaymentApplicationTest.kt:106-110 | No confirmation is dropped or sent to both outputs |
| `PaymentApplication.InitiateThenComplete` | src/test/kotlin/com/github/harshadnawathe/coffeehut/workflow/payment/PaymentApplicationTest.kt:62-110 | A payment for "some-beverage" is initiated with amount 13; completing it successfully emits one completion event and no failure |
| `OrderApplication.TakeOrder` | src/main/kotlin/com/github/harshadnawathe/coffeehut/workflow/order/OrderApplication.kt:32-39 | One `OrderAcceptedEvent` per saved order, carrying its id, beverage and customer name |
| `OrderApplication.ConfirmOrder` | src/main/kotlin/com/github/harshadnawathe/coffeehut/workflow/order/OrderApplication.kt:42-49 | One `OrderConfirmedEvent` per order found, carrying its id, beverage and customer name |
| `OrderApplication.CancelOrder` | src/main/kotlin/com/github/harshadnawathe/coffeehut/workflow/order/OrderApplication.kt:52-59 | One `OrderCancelledEvent` per order found, carrying only its id |
| `OrderApplication.OrderEventsStream` | src/main/kotlin/com/github/harshadnawathe/coffeehut/workflow/order/OrderApplication.kt:36-57 | The three mappings are streaming: events of later orders follow those of earlier orders |
| `Dispatcher.NotFound` | src/test/kotlin/com/github/harshadnawathe/coffeehut/util/PathMatchingDispatcher.kt:45-48 | The unmatched reply has code 404 and body "Not found: " followed by the path |
| `Dispatcher.FirstMatch` | src/test/kotlin/com/github/harshadnawathe/coffeehut/util/PathMatchingDispatcher.kt:38-40 | The index found is of a matching pattern with no matching pattern before it; none found means no pattern matches |
| `Dispatcher.Respond` | src/test/kotlin/com/github/harshadnawathe/coffeehut/util/PathMatchingDispatcher.kt:37-43 | The first matching entry serves its head response and advances; other entries are unchanged; with no match the reply is 404 and nothing changes; no entry ever runs out of responses |
| `Dispatcher.RespondTimesFollowsScript` | src/test/kotlin/com/github/harshadnawathe/coffeehut/util/PathMatchingDispatcher.kt:55-59 | Successive requests for a path get the matching entry's responses in order, the last one repeating |
| `Dispatcher.UnmatchedPathIsNotFound` | src/test/kotlin/com/github/harshadnawathe/coffeehut/util/PathMatchingDispatcher.kt:40 | With no matching entry every request gets the 404 reply |
| `Dispatcher.FalseThenTrue` | src/test/kotlin/com/github/harshadnawathe/coffeehut/workflow/WorkflowTest.kt:230-238 | A path scripted false then true answers false, true, true |
| `Dispatcher.PathConfig.constructor` | src/test/kotlin/com/github/harshadnawathe/coffeehut/util/PathMatchingDispatcher.kt:51-54 | An entry holds its pattern and the given responses |
| `Dispatcher.PathConfig.NextResponse` | src/test/kotlin/com/github/harshadnawathe/coffeehut/util/PathMatchingDispatcher.kt:55-59 | Returns the head response and drops it only while more than one remains, so the list never empties |
| `Dispatcher.PathMatchingDispatcher.constructor` | src/test/kotlin/com/github/harshadnawathe/coffeehut/util/PathMatchingDispatcher.kt:11-12 | A new dispatcher has no entries |
| `Dispatcher.PathMatchingDispatcher.AddConfig` | src/test/kotlin/com/github/harshadnawathe/coffeehut/util/PathMatchingDispatcher.kt:14-27 | Refuses an empty response list with the source's message and no change; otherwise appends a fresh entry at the end and leaves existing entries unchanged |
| `Dispatcher.PathMatchingDispatcher.Shutdown` | src/test/kotlin/com/github/harshadnawathe/coffeehut/util/PathMatchingDispatcher.kt:31-35 | Empties the configuration list |
| `Dispatcher.PathMatchingDispatcher.ResponseFor` | src/test/kotlin/com/github/harshadnawathe/coffeehut/util/PathMatchingDispatcher.kt:29-43 | Reply and new entries are those of `Respond` on the old entries; the list of configuration objects is unchanged |

## Left out

- Reactor scheduling: `publish()`, `connect()`, `doOnSubscribe`, backpressure and the interleaving of `flatMap`. Results are an already-ordered input sequence. The single upstream execution shared by both outputs is not modelled beyond one check per request.
- Subscription timing: the upstream is connected on the first subscription of either output. An output attached after events have flowed would miss them. The model assumes both outputs are attached before the first result.
- Status-check errors. The status clients decode the reply body whatever the HTTP status, so an empty body is an empty reply (`None` here) and a body of `true` or `false` is that answer, also on a non-200 reply. Only a transport failure or an undecodable body (such as the dispatcher's 404 text) is an error. Such an error ends the `concatMap`/`flatMap` upstream: no later request is processed and both sinks stay open, neither completed nor errored. The model has no error reply.
- The HTTP status clients, the payment gateway client and the persistence layer (`OrderService`, `PaymentRepository`, the stored entities). They are the oracle and lookup parameters; the store-assigned id is a parameter of `CreateNew`.
- `PaymentService.CreateNew`: the amount is a `Double` in the source; here it is the same whole number (the UTF-16 length) as a `nat`.
- `OrderApplication.TakeOrder`, `ConfirmOrder`, `CancelOrder`, `PaymentApplication.InitiatePayment` and `RefundPayment` take the records already resolved by the store, in arrival order; a lookup that finds nothing contributes no record.
- The oracles are fixed functions of the id: one stream cannot see the same id answered differently over time, as the scripted mock server does across retries.
- Spring's `PathPattern` matching is the `matches` parameter; pattern parsing errors and the `synchronized` locking are not modelled.
- Kafka plumbing, JSON serialisation of events and the test classes.
