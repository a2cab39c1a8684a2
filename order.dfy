/** The order step: saved or found orders mapped one-to-one to events. */
module OrderApplication {
  import opened Streams

  /** A stored order; `id` is assigned by the store when it is saved. */
  datatype Order = Order(id: string, beverage: string, customerName: string)

  datatype OrderAcceptedEvent = OrderAcceptedEvent(orderId: string, beverage: string, customerName: string)
  datatype OrderConfirmedEvent = OrderConfirmedEvent(orderId: string, beverage: string, customerName: string)
  datatype OrderCancelledEvent = OrderCancelledEvent(orderId: string)

  /** `takeOrder`: one acceptance per saved order, in the order the saves complete. */
  function TakeOrder(saved: seq<Order>): (events: seq<OrderAcceptedEvent>)
    ensures |events| == |saved|
    ensures forall i :: 0 <= i < |saved| ==>
              && events[i].orderId == saved[i].id
              && events[i].beverage == saved[i].beverage
              && events[i].customerName == saved[i].customerName
  {
    MapSeq((o: Order) => OrderAcceptedEvent(o.id, o.beverage, o.customerName), saved)
  }

  /** `confirmOrder`: one confirmation per order found, in the order the lookups complete. */
  function ConfirmOrder(found: seq<Order>): (events: seq<OrderConfirmedEvent>)
    ensures |events| == |found|
    ensures forall i :: 0 <= i < |found| ==>
              && events[i].orderId == found[i].id
              && events[i].beverage == found[i].beverage
              && events[i].customerName == found[i].customerName
  {
    MapSeq((o: Order) => OrderConfirmedEvent(o.id, o.beverage, o.customerName), found)
  }

  /** `cancelOrder`: one cancellation per order found, carrying the order id only. */
  function CancelOrder(found: seq<Order>): (events: seq<OrderCancelledEvent>)
    ensures |events| == |found|
    ensures forall i :: 0 <= i < |found| ==> events[i].orderId == found[i].id
  {
    MapSeq((o: Order) => OrderCancelledEvent(o.id), found)
  }

  /** The mappings are streaming: later orders' events follow earlier orders' events. */
  lemma {:induction false} OrderEventsStream(earlier: seq<Order>, later: seq<Order>)
    ensures TakeOrder(earlier + later) == TakeOrder(earlier) + TakeOrder(later)
    ensures ConfirmOrder(earlier + later) == ConfirmOrder(earlier) + ConfirmOrder(later)
    ensures CancelOrder(earlier + later) == CancelOrder(earlier) + CancelOrder(later)
  {
    MapSeqAppend((o: Order) => OrderAcceptedEvent(o.id, o.beverage, o.customerName), earlier, later);
    MapSeqAppend((o: Order) => OrderConfirmedEvent(o.id, o.beverage, o.customerName), earlier, later);
    MapSeqAppend((o: Order) => OrderCancelledEvent(o.id), earlier, later);
  }
}
