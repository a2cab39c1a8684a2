/**
 * The payment service. Amounts are whole numbers: the amount is the length
 * of a beverage name, which the source holds as a floating-point number.
 */
module PaymentService {
  import opened Wrappers

  /** A stored payment; `id` is assigned by the store when it is saved. */
  datatype Payment = Payment(id: string, orderId: string, amount: nat)

  datatype InitiatePaymentRequest = InitiatePaymentRequest(orderId: string, beverage: string)
  datatype CompletePaymentRequest = CompletePaymentRequest(paymentId: string, amount: nat)
  datatype PaymentConfirmation = PaymentConfirmation(paymentId: string, orderId: string, isSuccess: bool)
  datatype PaymentResult = PaymentResult(paymentId: string, isSuccess: bool)
  datatype RefundRequest = RefundRequest(orderId: string)
  datatype RefundConfirmation = RefundConfirmation(orderId: string, paymentId: string, amount: nat)

  /** Store lookup by payment id or by order id; `None` when nothing is stored. */
  type PaymentLookup = string -> Option<Payment>
  /** The payment gateway's answer for a payment id; `None` when it answers nothing. */
  type PaymentGateway = string -> Option<PaymentResult>

  /**
   * The length of a string as the JVM counts it: in UTF-16 code units, so a
   * character outside the Basic Multilingual Plane counts twice.
   */
  function Utf16Length(s: string): nat
  {
    if s == [] then 0
    else Utf16Length(s[..|s| - 1]) + (if s[|s| - 1] as int > 0xFFFF then 2 else 1)
  }

  /** A string of Basic Multilingual Plane characters has as many UTF-16 units as characters. */
  lemma {:induction false} Utf16LengthOfBmp(s: string)
    requires forall i :: 0 <= i < |s| ==> s[i] as int <= 0xFFFF
    ensures Utf16Length(s) == |s|
  {
    if s != [] {
      Utf16LengthOfBmp(s[..|s| - 1]);
    }
  }

  /** Each character takes one or two UTF-16 units. */
  lemma {:induction false} Utf16LengthBounds(s: string)
    ensures |s| <= Utf16Length(s) <= 2 * |s|
  {
    if s != [] {
      Utf16LengthBounds(s[..|s| - 1]);
    }
  }

  /** A new payment as saved, with the id the store assigns; its amount is the beverage name's length. */
  function CreateNew(request: InitiatePaymentRequest, assignedId: string): (p: Payment)
    ensures p.orderId == request.orderId
    ensures p.amount == Utf16Length(request.beverage)
    ensures p.id == assignedId
  {
    Payment(assignedId, request.orderId, Utf16Length(request.beverage))
  }

  /** "some-beverage" costs 13; a single character outside the Basic Multilingual Plane costs 2. */
  lemma AmountExamples(orderId: string, assignedId: string)
    ensures CreateNew(InitiatePaymentRequest(orderId, "some-beverage"), assignedId).amount == 13
    ensures CreateNew(InitiatePaymentRequest(orderId, "\U{1F375}"), assignedId).amount == 2
  {
    Utf16LengthOfBmp("some-beverage");
    assert "\U{1F375}"[..0] == [];
  }

  /** The stored payment and the gateway's answer for the request's payment id, zipped. */
  function Complete(request: CompletePaymentRequest, findById: PaymentLookup, gateway: PaymentGateway)
    : (r: Option<PaymentConfirmation>)
    ensures r.Some? <==> findById(request.paymentId).Some? && gateway(request.paymentId).Some?
    ensures r.Some? ==>
              && r.value.paymentId == findById(request.paymentId).value.id
              && r.value.orderId == findById(request.paymentId).value.orderId
              && r.value.isSuccess == gateway(request.paymentId).value.isSuccess
  {
    match (findById(request.paymentId), gateway(request.paymentId))
    case (Some(payment), Some(confirmation)) =>
      Some(PaymentConfirmation(payment.id, payment.orderId, confirmation.isSuccess))
    case _ => None
  }

  /** The stored payment of the request's order, turned into a refund confirmation. */
  function Refund(request: RefundRequest, findByOrderId: PaymentLookup): (r: Option<RefundConfirmation>)
    ensures r.Some? <==> findByOrderId(request.orderId).Some?
    ensures r.Some? ==>
              && r.value.orderId == findByOrderId(request.orderId).value.orderId
              && r.value.paymentId == findByOrderId(request.orderId).value.id
              && r.value.amount == findByOrderId(request.orderId).value.amount
  {
    match findByOrderId(request.orderId)
    case Some(payment) => Some(RefundConfirmation(payment.orderId, payment.id, payment.amount))
    case None => None
  }

  /** The amount in a completion request plays no part in the outcome. */
  lemma CompleteIgnoresAmount(
    paymentId: string, amount1: nat, amount2: nat, findById: PaymentLookup, gateway: PaymentGateway)
    ensures Complete(CompletePaymentRequest(paymentId, amount1), findById, gateway)
            == Complete(CompletePaymentRequest(paymentId, amount2), findById, gateway)
  {
  }

  /** The store and the gateway are consulted about the request's payment id and nothing else. */
  lemma CompleteAsksAboutPaymentId(
    request: CompletePaymentRequest, findById1: PaymentLookup, gateway1: PaymentGateway,
    findById2: PaymentLookup, gateway2: PaymentGateway)
    requires findById1(request.paymentId) == findById2(request.paymentId)
    requires gateway1(request.paymentId) == gateway2(request.paymentId)
    ensures Complete(request, findById1, gateway1) == Complete(request, findById2, gateway2)
  {
  }

  /**
   * Completing a payment that was created and stored yields a confirmation
   * for that payment and its order, whatever payment id the gateway echoes.
   */
  lemma CompleteAfterCreate(
    request: InitiatePaymentRequest, assignedId: string, findById: PaymentLookup, gateway: PaymentGateway,
    echoedId: string, isSuccess: bool)
    requires findById(assignedId) == Some(CreateNew(request, assignedId))
    requires gateway(assignedId) == Some(PaymentResult(echoedId, isSuccess))
    ensures Complete(CompletePaymentRequest(assignedId, Utf16Length(request.beverage)), findById, gateway)
            == Some(PaymentConfirmation(assignedId, request.orderId, isSuccess))
  {
  }

  /** Refunding the order of a created payment gives back that payment's id and its amount. */
  lemma RefundAfterCreate(request: InitiatePaymentRequest, assignedId: string, findByOrderId: PaymentLookup)
    requires findByOrderId(request.orderId) == Some(CreateNew(request, assignedId))
    ensures Refund(RefundRequest(request.orderId), findByOrderId)
            == Some(RefundConfirmation(request.orderId, assignedId, Utf16Length(request.beverage)))
  {
  }
}

/** The payment step: initiation and refund events, and completions routed to two outputs. */
module PaymentApplication {
  import opened Wrappers
  import opened Streams
  import opened Routing
  import opened PaymentService

  datatype PaymentInitiatedEvent = PaymentInitiatedEvent(paymentId: string, orderId: string, amount: nat)
  datatype PaymentCompletedEvent = PaymentCompletedEvent(paymentId: string, orderId: string)
  datatype PaymentFailedEvent = PaymentFailedEvent(paymentId: string, orderId: string)
  datatype PaymentRefundedEvent = PaymentRefundedEvent(paymentId: string, orderId: string, amount: nat)

  /** `initiatePayment`: one event per saved payment, in the order the saves complete. */
  function InitiatePayment(saved: seq<Payment>): (events: seq<PaymentInitiatedEvent>)
    ensures |events| == |saved|
    ensures forall i :: 0 <= i < |saved| ==>
              && events[i].paymentId == saved[i].id
              && events[i].orderId == saved[i].orderId
              && events[i].amount == saved[i].amount
  {
    MapSeq((p: Payment) => PaymentInitiatedEvent(p.id, p.orderId, p.amount), saved)
  }

  /** `refundPayment`: one event per refund confirmation, in the order they arrive. */
  function RefundPayment(confirmations: seq<RefundConfirmation>): (events: seq<PaymentRefundedEvent>)
    ensures |events| == |confirmations|
    ensures forall i :: 0 <= i < |confirmations| ==>
              && events[i].paymentId == confirmations[i].paymentId
              && events[i].orderId == confirmations[i].orderId
              && events[i].amount == confirmations[i].amount
  {
    MapSeq((c: RefundConfirmation) => PaymentRefundedEvent(c.paymentId, c.orderId, c.amount), confirmations)
  }

  /** The complementary filters `isSuccess` and `!isSuccess`, each building its own event. */
  function Classify(confirmation: PaymentConfirmation): (e: Routed<PaymentCompletedEvent, PaymentFailedEvent>)
    ensures e.Success? <==> confirmation.isSuccess
    ensures e.Success? ==>
              e.success.paymentId == confirmation.paymentId && e.success.orderId == confirmation.orderId
    ensures e.Failure? ==>
              e.failure.paymentId == confirmation.paymentId && e.failure.orderId == confirmation.orderId
  {
    if confirmation.isSuccess then Success(PaymentCompletedEvent(confirmation.paymentId, confirmation.orderId))
    else Failure(PaymentFailedEvent(confirmation.paymentId, confirmation.orderId))
  }

  /**
   * `completePayment`: confirmations, in the order they arrive from the
   * concurrent completions (`flatMap`), routed to the completed and failed
   * outputs; both outputs are completed when the confirmations end.
   */
  method CompletePayment(confirmations: seq<PaymentConfirmation>)
    returns (paymentCompleted: seq<PaymentCompletedEvent>, paymentFailed: seq<PaymentFailedEvent>,
             completedCompleted: bool, failedCompleted: bool)
    ensures paymentCompleted == Successes(Classify, confirmations)
    ensures paymentFailed == Failures(Classify, confirmations)
    ensures completedCompleted && failedCompleted
  {
    paymentCompleted, paymentFailed, completedCompleted, failedCompleted := Route(Classify, confirmations);
  }

  /**
   * Each confirmation reaches exactly one output, at the position right after
   * the events of the confirmations that arrived before it.
   */
  lemma {:induction false} CompletionRoutedAt(confirmations: seq<PaymentConfirmation>, i: nat)
    requires i < |confirmations|
    ensures var c := confirmations[i];
      if c.isSuccess then
        var k := |Successes(Classify, confirmations[..i])|;
        && k < |Successes(Classify, confirmations)|
        && Successes(Classify, confirmations)[k] == PaymentCompletedEvent(c.paymentId, c.orderId)
        && Failures(Classify, confirmations[..i + 1]) == Failures(Classify, confirmations[..i])
      else
        var k := |Failures(Classify, confirmations[..i])|;
        && k < |Failures(Classify, confirmations)|
        && Failures(Classify, confirmations)[k] == PaymentFailedEvent(c.paymentId, c.orderId)
        && Successes(Classify, confirmations[..i + 1]) == Successes(Classify, confirmations[..i])
  {
    RoutedAt(Classify, confirmations, i);
  }

  /** No confirmation is dropped or duplicated: the outputs together hold one event per confirmation. */
  lemma {:induction false} OneEventPerConfirmation(confirmations: seq<PaymentConfirmation>)
    ensures |Successes(Classify, confirmations)| + |Failures(Classify, confirmations)| == |confirmations|
  {
    RoutedCount(Classify, confirmations);
  }

  /**
   * A payment created for an order of "some-beverage" is initiated with
   * amount 13, and completing it with a successful gateway answer emits a
   * completion event for that payment and order and no failure.
   */
  lemma {:induction false} InitiateThenComplete(
    orderId: string, assignedId: string, findById: PaymentLookup, gateway: PaymentGateway, echoedId: string)
    requires findById(assignedId) == Some(CreateNew(InitiatePaymentRequest(orderId, "some-beverage"), assignedId))
    requires gateway(assignedId) == Some(PaymentResult(echoedId, true))
    ensures InitiatePayment([CreateNew(InitiatePaymentRequest(orderId, "some-beverage"), assignedId)])
            == [PaymentInitiatedEvent(assignedId, orderId, 13)]
    ensures var c := Complete(CompletePaymentRequest(assignedId, 13), findById, gateway);
            && c.Some?
            && Successes(Classify, [c.value]) == [PaymentCompletedEvent(assignedId, orderId)]
            && Failures(Classify, [c.value]) == []
  {
    var request := InitiatePaymentRequest(orderId, "some-beverage");
    AmountExamples(orderId, assignedId);
    CompleteAfterCreate(request, assignedId, findById, gateway, echoedId, true);
    RoutedOne(Classify, PaymentConfirmation(assignedId, orderId, true));
  }
}
