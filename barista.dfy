/** The barista step's service: one preparation check per request, turned into a result variant. */
module BaristaService {
  import opened Wrappers

  datatype PrepareOrderRequest = PrepareOrderRequest(orderId: string, beverage: string, customerName: string)

  /** `Beverage` when the preparation succeeded, `NoBeverage` (the order id only) when it did not. */
  datatype PrepareOrderResult =
    | Beverage(orderId: string, beverage: string, customerName: string)
    | NoBeverage(orderId: string)

  /** The remote preparation check: its answer for an order id, `None` when it answers nothing. */
  type PrepareOrderSuccessCheck = string -> Option<bool>

  function PrepareOrder(request: PrepareOrderRequest, successCheck: PrepareOrderSuccessCheck)
    : (r: Option<PrepareOrderResult>)
    ensures r.Some? <==> successCheck(request.orderId).Some?
    ensures r.Some? ==> r.value.orderId == request.orderId
    ensures r.Some? ==> (r.value.Beverage? <==> successCheck(request.orderId).value)
    ensures r.Some? && r.value.Beverage? ==>
              r.value.beverage == request.beverage && r.value.customerName == request.customerName
  {
    match successCheck(request.orderId)
    case None => None
    case Some(isSuccess) =>
      Some(if isSuccess then Beverage(request.orderId, request.beverage, request.customerName)
           else NoBeverage(request.orderId))
  }

  /** The check is consulted about the request's order id and about nothing else. */
  lemma PrepareOrderAsksAboutOrderId(
    request: PrepareOrderRequest, check1: PrepareOrderSuccessCheck, check2: PrepareOrderSuccessCheck)
    requires check1(request.orderId) == check2(request.orderId)
    ensures PrepareOrder(request, check1) == PrepareOrder(request, check2)
  {
  }
}

/** The barista step: preparation results routed to the prepared and preparation-failed outputs. */
module BaristaApplication {
  import opened Wrappers
  import opened Streams
  import opened Routing
  import opened BaristaService

  datatype OrderPreparedEvent = OrderPreparedEvent(orderId: string, beverage: string, customerName: string)
  datatype OrderPreparationFailedEvent = OrderPreparationFailedEvent(orderId: string)

  /** The `when` over the result variant. */
  function Classify(result: PrepareOrderResult): (e: Routed<OrderPreparedEvent, OrderPreparationFailedEvent>)
    ensures e.Success? <==> result.Beverage?
    ensures e.Success? ==>
              e.success.orderId == result.orderId && e.success.beverage == result.beverage
              && e.success.customerName == result.customerName
    ensures e.Failure? ==> e.failure.orderId == result.orderId
  {
    match result
    case Beverage(orderId, beverage, customerName) => Success(OrderPreparedEvent(orderId, beverage, customerName))
    case NoBeverage(orderId) => Failure(OrderPreparationFailedEvent(orderId))
  }

  /** The results of the requests, one check per request, in request order (`concatMap`). */
  function Results(requests: seq<PrepareOrderRequest>, successCheck: PrepareOrderSuccessCheck)
    : seq<PrepareOrderResult>
  {
    ConcatMap(request => BaristaService.PrepareOrder(request, successCheck), requests)
  }

  function PreparedEvents(requests: seq<PrepareOrderRequest>, successCheck: PrepareOrderSuccessCheck)
    : seq<OrderPreparedEvent>
  {
    Successes(Classify, Results(requests, successCheck))
  }

  function PreparationFailedEvents(requests: seq<PrepareOrderRequest>, successCheck: PrepareOrderSuccessCheck)
    : seq<OrderPreparationFailedEvent>
  {
    Failures(Classify, Results(requests, successCheck))
  }

  /** The `prepareOrder` function: both outputs' buffers once the request stream has completed. */
  method PrepareOrder(requests: seq<PrepareOrderRequest>, successCheck: PrepareOrderSuccessCheck)
    returns (orderPrepared: seq<OrderPreparedEvent>, orderPreparationFailed: seq<OrderPreparationFailedEvent>,
             preparedCompleted: bool, failedCompleted: bool)
    ensures orderPrepared == PreparedEvents(requests, successCheck)
    ensures orderPreparationFailed == PreparationFailedEvents(requests, successCheck)
    ensures preparedCompleted && failedCompleted
  {
    orderPrepared, orderPreparationFailed, preparedCompleted, failedCompleted :=
      Route(Classify, Results(requests, successCheck));
  }

  /** A request whose check answers true yields one prepared event with its fields and no failure. */
  lemma {:induction false} PreparedWhenCheckSucceeds(request: PrepareOrderRequest, successCheck: PrepareOrderSuccessCheck)
    requires successCheck(request.orderId) == Some(true)
    ensures PreparedEvents([request], successCheck)
            == [OrderPreparedEvent(request.orderId, request.beverage, request.customerName)]
    ensures PreparationFailedEvents([request], successCheck) == []
  {
    var rs := Results([request], successCheck);
    assert rs == [Beverage(request.orderId, request.beverage, request.customerName)];
    RoutedOne(Classify, rs[0]);
  }

  /** A request whose check answers false yields one failure event with its order id and nothing prepared. */
  lemma {:induction false} FailedWhenCheckFails(request: PrepareOrderRequest, successCheck: PrepareOrderSuccessCheck)
    requires successCheck(request.orderId) == Some(false)
    ensures PreparationFailedEvents([request], successCheck) == [OrderPreparationFailedEvent(request.orderId)]
    ensures PreparedEvents([request], successCheck) == []
  {
    var rs := Results([request], successCheck);
    assert rs == [NoBeverage(request.orderId)];
    RoutedOne(Classify, rs[0]);
  }

  /** When every check answers, each request yields exactly one event over the two outputs. */
  lemma {:induction false} OneEventPerAnsweredRequest(
    requests: seq<PrepareOrderRequest>, successCheck: PrepareOrderSuccessCheck)
    requires forall i :: 0 <= i < |requests| ==> successCheck(requests[i].orderId).Some?
    ensures |PreparedEvents(requests, successCheck)| + |PreparationFailedEvents(requests, successCheck)|
            == |requests|
  {
    var f := request => BaristaService.PrepareOrder(request, successCheck);
    assert forall i :: 0 <= i < |requests| ==> f(requests[i]).Some?;
    RoutedCount(Classify, Results(requests, successCheck));
  }

  /** Requests are processed one after another: the events of earlier requests come first on each output. */
  lemma {:induction false} EventsFollowRequestOrder(
    earlier: seq<PrepareOrderRequest>, later: seq<PrepareOrderRequest>, successCheck: PrepareOrderSuccessCheck)
    ensures PreparedEvents(earlier + later, successCheck)
            == PreparedEvents(earlier, successCheck) + PreparedEvents(later, successCheck)
    ensures PreparationFailedEvents(earlier + later, successCheck)
            == PreparationFailedEvents(earlier, successCheck) + PreparationFailedEvents(later, successCheck)
  {
    ConcatMapAppend(request => BaristaService.PrepareOrder(request, successCheck), earlier, later);
    RoutedAppend(Classify, Results(earlier, successCheck), Results(later, successCheck));
  }

  /**
   * A request whose check answers nothing (an empty reply) is dropped by
   * `concatMap`: neither output gets an event for it, and the others keep
   * their order.
   */
  lemma {:induction false} UnansweredRequestIsDropped(
    earlier: seq<PrepareOrderRequest>, request: PrepareOrderRequest, later: seq<PrepareOrderRequest>, successCheck: PrepareOrderSuccessCheck)
    requires successCheck(request.orderId).None?
    ensures PreparedEvents(earlier + [request] + later, successCheck) == PreparedEvents(earlier + later, successCheck)
    ensures PreparationFailedEvents(earlier + [request] + later, successCheck) == PreparationFailedEvents(earlier + later, successCheck)
  {
    EventsFollowRequestOrder(earlier + [request], later, successCheck);
    EventsFollowRequestOrder(earlier, [request], successCheck);
    EventsFollowRequestOrder(earlier, later, successCheck);
    ConcatMapOne(request => BaristaService.PrepareOrder(request, successCheck), request);
  }
}
