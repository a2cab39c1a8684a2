/** The delivery step's service: one delivery check per request, carried with the request's fields. */
module DeliveryService {
  import opened Wrappers

  datatype ServeOrderRequest = ServeOrderRequest(orderId: string, beverage: string, customerName: string)
  datatype ServeOrderResult =
    ServeOrderResult(orderId: string, beverage: string, customerName: string, isSuccess: bool)

  /** The remote delivery check: its answer for an order id, `None` when it answers nothing. */
  type DeliveryStatusCheck = string -> Option<bool>

  function ServeOrder(request: ServeOrderRequest, statusCheck: DeliveryStatusCheck): (r: Option<ServeOrderResult>)
    ensures r.Some? <==> statusCheck(request.orderId).Some?
    ensures r.Some? ==>
              && r.value.orderId == request.orderId
              && r.value.beverage == request.beverage
              && r.value.customerName == request.customerName
              && r.value.isSuccess == statusCheck(request.orderId).value
  {
    match statusCheck(request.orderId)
    case None => None
    case Some(isSuccess) =>
      Some(ServeOrderResult(request.orderId, request.beverage, request.customerName, isSuccess))
  }

  /** The check is consulted about the request's order id and about nothing else. */
  lemma ServeOrderAsksAboutOrderId(request: ServeOrderRequest, check1: DeliveryStatusCheck, check2: DeliveryStatusCheck)
    requires check1(request.orderId) == check2(request.orderId)
    ensures ServeOrder(request, check1) == ServeOrder(request, check2)
  {
  }
}

/** The delivery step: serve results routed to the served and spilt outputs. */
module DeliveryApplication {
  import opened Wrappers
  import opened Streams
  import opened Routing
  import opened DeliveryService

  datatype OrderServedEvent = OrderServedEvent(orderId: string)
  datatype OrderSpiltEvent = OrderSpiltEvent(orderId: string, beverage: string, customerName: string)

  /** The complementary filters `isSuccess` and `!isSuccess`, each building its own event. */
  function Classify(result: ServeOrderResult): (e: Routed<OrderServedEvent, OrderSpiltEvent>)
    ensures e.Success? <==> result.isSuccess
    ensures e.Success? ==> e.success.orderId == result.orderId
    ensures e.Failure? ==>
              e.failure.orderId == result.orderId && e.failure.beverage == result.beverage
              && e.failure.customerName == result.customerName
  {
    if result.isSuccess then Success(OrderServedEvent(result.orderId))
    else Failure(OrderSpiltEvent(result.orderId, result.beverage, result.customerName))
  }

  /** The results of the requests, one check per request, in request order (`concatMap`). */
  function Results(requests: seq<ServeOrderRequest>, statusCheck: DeliveryStatusCheck): seq<ServeOrderResult>
  {
    ConcatMap(request => DeliveryService.ServeOrder(request, statusCheck), requests)
  }

  function ServedEvents(requests: seq<ServeOrderRequest>, statusCheck: DeliveryStatusCheck): seq<OrderServedEvent>
  {
    Successes(Classify, Results(requests, statusCheck))
  }

  function SpiltEvents(requests: seq<ServeOrderRequest>, statusCheck: DeliveryStatusCheck): seq<OrderSpiltEvent>
  {
    Failures(Classify, Results(requests, statusCheck))
  }

  /** The `serveOrder` function: both outputs' buffers once the request stream has completed. */
  method ServeOrder(requests: seq<ServeOrderRequest>, statusCheck: DeliveryStatusCheck)
    returns (orderServed: seq<OrderServedEvent>, orderSpilt: seq<OrderSpiltEvent>,
             servedCompleted: bool, spiltCompleted: bool)
    ensures orderServed == ServedEvents(requests, statusCheck)
    ensures orderSpilt == SpiltEvents(requests, statusCheck)
    ensures servedCompleted && spiltCompleted
  {
    orderServed, orderSpilt, servedCompleted, spiltCompleted := Route(Classify, Results(requests, statusCheck));
  }

  /**
   * Two requests whose checks answer false and then true: the first is spilt
   * (keeping its beverage and customer), the second is served.
   */
  lemma {:induction false} SpiltThenServed(
    first: ServeOrderRequest, second: ServeOrderRequest, statusCheck: DeliveryStatusCheck)
    requires statusCheck(first.orderId) == Some(false)
    requires statusCheck(second.orderId) == Some(true)
    ensures SpiltEvents([first, second], statusCheck)
            == [OrderSpiltEvent(first.orderId, first.beverage, first.customerName)]
    ensures ServedEvents([first, second], statusCheck) == [OrderServedEvent(second.orderId)]
  {
    var f := request => DeliveryService.ServeOrder(request, statusCheck);
    assert [first, second] == [first] + [second];
    ConcatMapAppend(f, [first], [second]);
    var r1 := ServeOrderResult(first.orderId, first.beverage, first.customerName, false);
    var r2 := ServeOrderResult(second.orderId, second.beverage, second.customerName, true);
    assert Results([first], statusCheck) == [r1];
    assert Results([second], statusCheck) == [r2];
    RoutedAppend(Classify, [r1], [r2]);
    RoutedOne(Classify, r1);
    RoutedOne(Classify, r2);
  }

  /** When every check answers, each request yields exactly one event over the two outputs. */
  lemma {:induction false} OneEventPerAnsweredRequest(requests: seq<ServeOrderRequest>, statusCheck: DeliveryStatusCheck)
    requires forall i :: 0 <= i < |requests| ==> statusCheck(requests[i].orderId).Some?
    ensures |ServedEvents(requests, statusCheck)| + |SpiltEvents(requests, statusCheck)| == |requests|
  {
    var f := request => DeliveryService.ServeOrder(request, statusCheck);
    assert forall i :: 0 <= i < |requests| ==> f(requests[i]).Some?;
    RoutedCount(Classify, Results(requests, statusCheck));
  }

  /** Requests are processed one after another: the events of earlier requests come first on each output. */
  lemma {:induction false} EventsFollowRequestOrder(
    earlier: seq<ServeOrderRequest>, later: seq<ServeOrderRequest>, statusCheck: DeliveryStatusCheck)
    ensures ServedEvents(earlier + later, statusCheck)
            == ServedEvents(earlier, statusCheck) + ServedEvents(later, statusCheck)
    ensures SpiltEvents(earlier + later, statusCheck)
            == SpiltEvents(earlier, statusCheck) + SpiltEvents(later, statusCheck)
  {
    ConcatMapAppend(request => DeliveryService.ServeOrder(request, statusCheck), earlier, later);
    RoutedAppend(Classify, Results(earlier, statusCheck), Results(later, statusCheck));
  }

  /**
   * A request whose check answers nothing (an empty reply) is dropped by
   * `concatMap`: neither output gets an event for it, and the others keep
   * their order.
   */
  lemma {:induction false} UnansweredRequestIsDropped(
    earlier: seq<ServeOrderRequest>, request: ServeOrderRequest, later: seq<ServeOrderRequest>, statusCheck: DeliveryStatusCheck)
    requires statusCheck(request.orderId).None?
    ensures ServedEvents(earlier + [request] + later, statusCheck) == ServedEvents(earlier + later, statusCheck)
    ensures SpiltEvents(earlier + [request] + later, statusCheck) == SpiltEvents(earlier + later, statusCheck)
  {
    EventsFollowRequestOrder(earlier + [request], later, statusCheck);
    EventsFollowRequestOrder(earlier, [request], statusCheck);
    EventsFollowRequestOrder(earlier, later, statusCheck);
    ConcatMapOne(request => DeliveryService.ServeOrder(request, statusCheck), request);
  }
}
