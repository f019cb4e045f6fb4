/**
 * The domain events an order records. Each carries a snapshot of the
 * order taken when it was raised, so later changes to the order do not
 * alter it. The event's random id and its wall-clock timestamp are not
 * modelled; of the request context only the acting user is kept.
 */
module Events {
  import opened Base
  import opened Identifiers
  import opened Statuses

  datatype EventKind = OrderCreated | OrderPaid | OrderShipped | OrderDelivered | OrderCancelled

  datatype OrderEventPayload = OrderEventPayload(
    orderId: Option<OrderId>,
    customerId: UserId,
    orderDate: Instant,
    status: OrderStatus,
    totalAmount: Money,
    lineItemCount: nat)

  datatype OrderEvent = OrderEvent(kind: EventKind, actor: string, payload: OrderEventPayload)
}
