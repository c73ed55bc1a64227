/** The order document of backend/models/Order.js: its status life cycle, the
    timeline the status changes leave, payments and refunds, and its virtuals.
    Times are milliseconds since the epoch, passed in as `now`. */
module OrderModel {
  import opened Basics

  datatype OrderStatus =
    | Pending | Confirmed | Processing | Manufacturing | QualityCheck
    | Shipped | Delivered | Cancelled | Returned

  /** The stored spelling of each status. */
  function StatusName(s: OrderStatus): string {
    match s
    case Pending => "pending"
    case Confirmed => "confirmed"
    case Processing => "processing"
    case Manufacturing => "manufacturing"
    case QualityCheck => "quality_check"
    case Shipped => "shipped"
    case Delivered => "delivered"
    case Cancelled => "cancelled"
    case Returned => "returned"
  }

  datatype PaymentMethod = Cod | Online | BankTransfer | Cheque

  datatype PaymentStatus = PaymentPending | PaymentCompleted | PaymentFailed | Refunded | PartialRefund

  datatype Payment = Payment(
    payMethod: PaymentMethod,
    status: PaymentStatus,
    transactionId: Option<string>,
    paidAmount: int,
    paidAt: Option<int>,
    refundAmount: int,
    refundedAt: Option<int>)

  datatype TrackingUpdate = TrackingUpdate(status: string, message: string, location: string, timestamp: int)

  datatype Tracking = Tracking(
    carrier: Option<string>,
    trackingNumber: Option<string>,
    estimatedDelivery: Option<int>,
    updates: seq<TrackingUpdate>)

  datatype TimelineEntry = TimelineEntry(status: OrderStatus, message: string, timestamp: int, updatedBy: string)

  datatype OrderItem = OrderItem(productId: string, name: string, image: string, price: int,
                                 quantity: int, size: string, color: string)

  /** An address; an absent optional part is the empty string. */
  datatype Address = Address(street: string, landmark: string, city: string, state: string,
                             pincode: string, country: string)

  datatype Pricing = Pricing(subtotal: int, tax: int, shipping: int, discount: int, total: int)

  const DayMillis: int := 24 * 60 * 60 * 1000

  // ---------------------------------------------------------------------------
  // Virtuals and read-only methods

  /** `formattedOrderId`. */
  function FormattedOrderId(orderId: string): (r: string)
    ensures |r| == |orderId| + 4 && r[..4] == "SKS-" && r[4..] == orderId
  {
    "SKS-" + orderId
  }

  /** `totalItems`: the quantities of the lines summed. */
  function TotalItems(items: seq<OrderItem>): int {
    if items == [] then 0 else TotalItems(items[..|items| - 1]) + items[|items| - 1].quantity
  }

  lemma {:induction false} TotalItemsAppend(a: seq<OrderItem>, b: seq<OrderItem>)
    ensures TotalItems(a + b) == TotalItems(a) + TotalItems(b)
  {
    if b != [] {
      TotalItemsAppend(a, b[..|b| - 1]);
      assert (a + b)[..|a + b| - 1] == a + b[..|b| - 1];
      assert (a + b)[|a + b| - 1] == b[|b| - 1];
    } else {
      assert a + b == a;
    }
  }

  /** With every quantity at least 1 (the schema's minimum), an order holds at least
      as many units as lines. */
  lemma {:induction false} TotalItemsAtLeastLines(items: seq<OrderItem>)
    requires forall i :: 0 <= i < |items| ==> items[i].quantity >= 1
    ensures TotalItems(items) >= |items|
  {
    if items != [] {
      var init := items[..|items| - 1];
      assert forall i :: 0 <= i < |init| ==> init[i] == items[i];
      TotalItemsAtLeastLines(init);
    }
  }

  /** `paymentBalance`. */
  function PaymentBalance(pricing: Pricing, payment: Payment): int {
    pricing.total - payment.paidAmount
  }

  function AddressParts(a: Address): seq<string> {
    [a.street, a.landmark, a.city, a.state, a.pincode, a.country]
  }

  /** `fullShippingAddress`: the non-empty parts joined with ", ". */
  function FullShippingAddress(a: Address): string {
    JoinNonEmpty(AddressParts(a))
  }

  /** A missing landmark leaves no empty slot between street and city: with every
      other part present, the address is those five parts joined by ", ". */
  lemma FullShippingAddressSkipsLandmark(street: string, city: string, state: string, pincode: string, country: string)
    requires street != "" && city != "" && state != "" && pincode != "" && country != ""
    ensures FullShippingAddress(Address(street, "", city, state, pincode, country))
            == street + ", " + city + ", " + state + ", " + pincode + ", " + country
  {
    var parts := [street, "", city, state, pincode, country];
    var kept := [city, state, pincode, country];
    assert parts[1..][1..] == kept;
    assert kept[1..] == [state, pincode, country];
    assert kept[1..][1..] == [pincode, country];
    assert kept[1..][1..][1..] == [country];
    NonEmptyKeepsAll(kept);
    assert NonEmpty(parts) == [street] + kept;
    assert ([street] + kept)[1..] == kept;
    assert [pincode, country][1..] == [country];
    assert Join([country], ", ") == country;
    var tail := Join([pincode, country], ", ");
    assert tail == pincode + ", " + country;
    assert Join(kept[1..], ", ") == state + ", " + tail;
    assert Join(kept, ", ") == city + ", " + (state + ", " + tail);
  }

  /** `canBeCancelled`. */
  predicate CanBeCancelled(status: OrderStatus) {
    status in {Pending, Confirmed}
  }

  /** `canBeReturned`: delivered, with a completion date, at most 30 days ago. */
  predicate CanBeReturned(status: OrderStatus, actualCompletionDate: Option<int>, now: int) {
    && status == Delivered
    && actualCompletionDate.Some?
    && now - actualCompletionDate.value <= 30 * DayMillis
  }

  /** Exactly pending and confirmed orders can be cancelled, and no order can be both
      cancelled and returned in the same state. */
  lemma CancelReturnRules(status: OrderStatus, date: Option<int>, now: int)
    ensures CanBeCancelled(status) <==> status == Pending || status == Confirmed
    ensures CanBeCancelled(status) ==> !CanBeReturned(status, date, now)
    ensures CanBeReturned(status, date, now) ==> CanBeReturned(status, date, now - 1)
  {
  }

  /** The 30-day window is inclusive: the last millisecond of day 30 still counts. */
  lemma ReturnWindowEdges(delivered: int)
    ensures CanBeReturned(Delivered, Some(delivered), delivered + 30 * DayMillis)
    ensures !CanBeReturned(Delivered, Some(delivered), delivered + 30 * DayMillis + 1)
    ensures !CanBeReturned(Delivered, None, delivered)
    ensures !CanBeReturned(Shipped, Some(delivered), delivered)
  {
  }

  // ---------------------------------------------------------------------------
  // The document

  class Order {
    const orderId: string
    const items: seq<OrderItem>
    const shippingAddress: Address
    const billingAddress: Address
    const pricing: Pricing
    var status: OrderStatus
    /** The status as last saved: Mongoose's `isModified('status')` is
        `status != persistedStatus`. */
    var persistedStatus: OrderStatus
    var timeline: seq<TimelineEntry>
    var tracking: Tracking
    var payment: Payment
    var estimatedCompletionDate: Option<int>
    var actualCompletionDate: Option<int>

    /** What a save leaves behind: nothing is pending, and the hook's dates are set. */
    predicate Valid()
      reads this
    {
      && persistedStatus == status
      && (status == Confirmed ==> estimatedCompletionDate.Some?)
      && (status == Delivered ==> actualCompletionDate.Some?)
    }

    /** `Order.create` from the order route: status and payment status start
        pending, nothing is paid, and a missing billing address is the shipping
        address. */
    constructor (orderId: string, items: seq<OrderItem>, shippingAddress: Address,
                 billingAddress: Option<Address>, pricing: Pricing, payMethod: PaymentMethod)
      ensures Valid()
      ensures this.orderId == orderId && this.items == items && this.pricing == pricing
      ensures this.shippingAddress == shippingAddress
      ensures this.billingAddress == billingAddress.GetOr(shippingAddress)
      ensures status == Pending && timeline == []
      ensures payment == Payment(payMethod, PaymentPending, None, 0, None, 0, None)
      ensures tracking == Tracking(None, None, None, [])
      ensures estimatedCompletionDate.None? && actualCompletionDate.None?
    {
      this.orderId := orderId;
      this.items := items;
      this.shippingAddress := shippingAddress;
      this.billingAddress := billingAddress.GetOr(shippingAddress);
      this.pricing := pricing;
      this.status := Pending;
      this.persistedStatus := Pending;
      this.timeline := [];
      this.tracking := Tracking(None, None, None, []);
      this.payment := Payment(payMethod, PaymentPending, None, 0, None, 0, None);
      this.estimatedCompletionDate := None;
      this.actualCompletionDate := None;
    }

    /** `save()`: the pre-save hook, then the write. A status changed since the last
        save adds "Order status changed to X" to the timeline; a confirmed order
        without an estimated completion date gets now + 10 days, a delivered one
        without an actual completion date gets now, and a date once set is kept. */
    method Save(now: int)
      modifies this
      ensures Valid()
      ensures status == old(status)
      ensures timeline == old(timeline) +
        (if old(status) != old(persistedStatus)
         then [TimelineEntry(status, "Order status changed to " + StatusName(status), now, "system")]
         else [])
      ensures estimatedCompletionDate ==
        (if status == Confirmed && old(estimatedCompletionDate).None?
         then Some(now + 10 * DayMillis) else old(estimatedCompletionDate))
      ensures actualCompletionDate ==
        (if status == Delivered && old(actualCompletionDate).None?
         then Some(now) else old(actualCompletionDate))
      ensures tracking == old(tracking) && payment == old(payment)
    {
      if status != persistedStatus {
        timeline := timeline + [TimelineEntry(status, "Order status changed to " + StatusName(status), now, "system")];
      }
      if status == Confirmed && estimatedCompletionDate.None? {
        estimatedCompletionDate := Some(now + 10 * DayMillis);
      }
      if status == Delivered && actualCompletionDate.None? {
        actualCompletionDate := Some(now);
      }
      persistedStatus := status;
    }

    /** `updateStatus(newStatus, message, updatedBy = 'system')`: any target status is
        accepted; one entry with the given (or default) message is appended, and the
        save adds a second one when the status really changed. */
    method UpdateStatus(newStatus: OrderStatus, message: string, updatedBy: Option<string>, now: int)
      requires Valid()
      modifies this
      ensures Valid()
      ensures status == newStatus
      ensures |timeline| == |old(timeline)| + (if newStatus != old(status) then 2 else 1)
      ensures timeline[..|old(timeline)|] == old(timeline)
      ensures timeline[|old(timeline)|] ==
        TimelineEntry(newStatus,
                      if message == "" then "Order status updated to " + StatusName(newStatus) else message,
                      now, updatedBy.GetOr("system"))
      ensures newStatus != old(status) ==>
        timeline[|old(timeline)| + 1] ==
          TimelineEntry(newStatus, "Order status changed to " + StatusName(newStatus), now, "system")
      ensures estimatedCompletionDate ==
        (if newStatus == Confirmed && old(estimatedCompletionDate).None?
         then Some(now + 10 * DayMillis) else old(estimatedCompletionDate))
      ensures actualCompletionDate ==
        (if newStatus == Delivered && old(actualCompletionDate).None?
         then Some(now) else old(actualCompletionDate))
      ensures tracking == old(tracking) && payment == old(payment)
    {
      status := newStatus;
      var text := if message == "" then "Order status updated to " + StatusName(newStatus) else message;
      timeline := timeline + [TimelineEntry(newStatus, text, now, updatedBy.GetOr("system"))];
      Save(now);
    }

    /** `addTrackingUpdate`: appends one update and saves. */
    method AddTrackingUpdate(updateStatus: string, message: string, location: string, now: int)
      requires Valid()
      modifies this
      ensures Valid()
      ensures tracking == old(tracking).(updates := old(tracking).updates + [TrackingUpdate(updateStatus, message, location, now)])
      ensures status == old(status) && timeline == old(timeline) && payment == old(payment)
      ensures estimatedCompletionDate == old(estimatedCompletionDate)
      ensures actualCompletionDate == old(actualCompletionDate)
    {
      tracking := tracking.(updates := tracking.updates + [TrackingUpdate(updateStatus, message, location, now)]);
      Save(now);
    }

    /** `processPayment`: the amount is added to what was paid; the payment is
        completed once the paid amount covers the total, and otherwise keeps its
        status. */
    method ProcessPayment(amount: int, transactionId: string, payMethod: PaymentMethod, now: int)
      requires Valid()
      modifies this
      ensures Valid()
      ensures payment.paidAmount == old(payment.paidAmount) + amount
      ensures PaymentBalance(pricing, payment) == old(PaymentBalance(pricing, payment)) - amount
      ensures payment.transactionId == Some(transactionId) && payment.payMethod == payMethod
      ensures payment.paidAt == Some(now)
      ensures payment.status == (if PaymentBalance(pricing, payment) <= 0 then PaymentCompleted else old(payment.status))
      ensures payment.refundAmount == old(payment.refundAmount) && payment.refundedAt == old(payment.refundedAt)
      ensures status == old(status) && timeline == old(timeline) && tracking == old(tracking)
      ensures estimatedCompletionDate == old(estimatedCompletionDate)
      ensures actualCompletionDate == old(actualCompletionDate)
    {
      var paid := payment.paidAmount + amount;
      var newStatus := if paid >= pricing.total then PaymentCompleted else payment.status;
      payment := payment.(paidAmount := paid, transactionId := Some(transactionId), payMethod := payMethod,
                          paidAt := Some(now), status := newStatus);
      Save(now);
    }

    /** `processRefund`: the amount is added to what was refunded; the payment is
        refunded once that covers the paid amount, and partially refunded
        otherwise. */
    method ProcessRefund(amount: int, now: int)
      requires Valid()
      modifies this
      ensures Valid()
      ensures payment.refundAmount == old(payment.refundAmount) + amount
      ensures payment.refundedAt == Some(now)
      ensures payment.status == (if payment.refundAmount >= payment.paidAmount then Refunded else PartialRefund)
      ensures payment.paidAmount == old(payment.paidAmount) && payment.payMethod == old(payment.payMethod)
      ensures payment.transactionId == old(payment.transactionId) && payment.paidAt == old(payment.paidAt)
      ensures status == old(status) && timeline == old(timeline) && tracking == old(tracking)
      ensures estimatedCompletionDate == old(estimatedCompletionDate)
      ensures actualCompletionDate == old(actualCompletionDate)
    {
      var refunded := payment.refundAmount + amount;
      payment := payment.(refundAmount := refunded, refundedAt := Some(now),
                          status := if refunded >= payment.paidAmount then Refunded else PartialRefund);
      Save(now);
    }
  }
}
