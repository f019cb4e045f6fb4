/**
 * The `Order` aggregate: a customer's line items, their recomputed total,
 * a status that moves through a fixed state machine, the audit trail, and
 * an append-only log of the domain events raised by status changes.
 *
 * The source updates an order in place, so `Order` is a class whose
 * methods change its fields and report success or the exception the source
 * would throw. The transition table and the event log it produces are
 * also given as functions, with the lemmas about them.
 */
module Orders {
  import opened Base
  import opened Identifiers
  import opened Statuses
  import Audit
  import opened LineItems
  import opened Events

  // ---------------------------------------------------------------------
  // The state machine

  /** The four status-changing operations. */
  datatype Transition = Pay | Ship | Deliver | Cancel

  /**
   * The transition table: the status `t` leads to from `s`, or None when
   * `t` is refused in `s`.
   */
  function Next(t: Transition, s: OrderStatus): Option<OrderStatus>
  {
    match t
    case Pay => if s == PENDING then Some(PAID) else None
    case Ship => if s == PAID then Some(SHIPPED) else None
    case Deliver => if s == SHIPPED then Some(DELIVERED) else None
    case Cancel => if s == PENDING || s == PAID then Some(CANCELLED) else None
  }

  /** The event a successful transition records. */
  function EventOf(t: Transition): EventKind
  {
    match t
    case Pay => OrderPaid
    case Ship => OrderShipped
    case Deliver => OrderDelivered
    case Cancel => OrderCancelled
  }

  /** How far along the lifecycle a status is. */
  function Rank(s: OrderStatus): nat
  {
    match s
    case PENDING => 0
    case PAID => 1
    case SHIPPED => 2
    case DELIVERED => 3
    case CANCELLED => 3
  }

  predicate IsTerminal(s: OrderStatus)
  {
    s == DELIVERED || s == CANCELLED
  }

  /** Every transition moves forward, and the terminal states admit none. */
  lemma NextMovesForward(t: Transition, s: OrderStatus)
    ensures Next(t, s).Some? ==> Rank(s) < Rank(Next(t, s).value)
    ensures IsTerminal(s) ==> Next(t, s) == None
    ensures Next(t, s).Some? ==> Next(t, s).value != PENDING
  {
  }

  /**
   * Each operation's source and target: pay PENDING to PAID, ship PAID to
   * SHIPPED, deliver SHIPPED to DELIVERED, cancel PENDING or PAID to CANCELLED.
   */
  lemma NextSources(s: OrderStatus)
    ensures Next(Pay, s).Some? <==> s == PENDING
    ensures Next(Ship, s).Some? <==> s == PAID
    ensures Next(Deliver, s).Some? <==> s == SHIPPED
    ensures Next(Cancel, s).Some? <==> s == PENDING || s == PAID
    ensures Next(Pay, PENDING) == Some(PAID)
    ensures Next(Ship, PAID) == Some(SHIPPED)
    ensures Next(Deliver, SHIPPED) == Some(DELIVERED)
    ensures s == PENDING || s == PAID ==> Next(Cancel, s) == Some(CANCELLED)
  {
  }

  /**
   * Applying transitions one after another, as calls on one order would:
   * a refused transition changes nothing, an accepted one moves the status
   * and records its event. The result is the final status and the events
   * recorded, in order.
   */
  function Run(ts: seq<Transition>, s: OrderStatus): (OrderStatus, seq<EventKind>)
  {
    if ts == [] then (s, [])
    else match Next(ts[0], s)
      case None => Run(ts[1..], s)
      case Some(s') =>
        var rest := Run(ts[1..], s');
        (rest.0, [EventOf(ts[0])] + rest.1)
  }

  /**
   * Whatever is attempted, an order records at most three transition
   * events, since each moves it forward and the lifecycle has three steps.
   */
  lemma {:induction false} RunRecordsAtMostThree(ts: seq<Transition>, s: OrderStatus)
    ensures Rank(s) + |Run(ts, s).1| <= Rank(Run(ts, s).0) <= 3
  {
    if ts != [] {
      NextMovesForward(ts[0], s);
      match Next(ts[0], s)
      case None => RunRecordsAtMostThree(ts[1..], s);
      case Some(s') => RunRecordsAtMostThree(ts[1..], s');
    }
  }

  /** Nothing is recorded once the order is delivered or cancelled. */
  lemma {:induction false} RunFromTerminal(ts: seq<Transition>, s: OrderStatus)
    requires IsTerminal(s)
    ensures Run(ts, s) == (s, [])
  {
    if ts != [] {
      NextMovesForward(ts[0], s);
      RunFromTerminal(ts[1..], s);
    }
  }

  /** The full lifecycle records paid, shipped, delivered, in that order. */
  lemma Lifecycle()
    ensures Run([Pay, Ship, Deliver], PENDING) == (DELIVERED, [OrderPaid, OrderShipped, OrderDelivered])
    ensures Run([Pay, Cancel], PENDING) == (CANCELLED, [OrderPaid, OrderCancelled])
  {
    // Run unfolds on its own; only the event concatenations need stating.
    assert [OrderDelivered] + [] == [OrderDelivered];
    assert [OrderCancelled] + [] == [OrderCancelled];
    assert [OrderShipped] + [OrderDelivered] == [OrderShipped, OrderDelivered];
    assert [OrderPaid] + [OrderShipped, OrderDelivered] == [OrderPaid, OrderShipped, OrderDelivered];
    assert [OrderPaid] + [OrderCancelled] == [OrderPaid, OrderCancelled];
  }

  // ---------------------------------------------------------------------
  // Line items

  /** The order total: the sum of the line items' total prices. */
  function SumTotals(items: seq<OrderLineItem>): Money
  {
    if items == [] then 0.0 else TotalPrice(items[0]) + SumTotals(items[1..])
  }

  lemma {:induction false} SumTotalsAppend(items: seq<OrderLineItem>, item: OrderLineItem)
    ensures SumTotals(items + [item]) == SumTotals(items) + TotalPrice(item)
  {
    if items == [] {
      assert items + [item] == [item];
    } else {
      assert (items + [item])[1..] == items[1..] + [item];
      SumTotalsAppend(items[1..], item);
    }
  }

  /** Replacing one item changes the total by the difference of the two items' totals. */
  lemma {:induction false} SumTotalsReplace(items: seq<OrderLineItem>, i: nat, item: OrderLineItem)
    requires i < |items|
    ensures SumTotals(items[i := item]) == SumTotals(items) - TotalPrice(items[i]) + TotalPrice(item)
  {
    if i > 0 {
      assert items[i := item][1..] == items[1..][i - 1 := item];
      SumTotalsReplace(items[1..], i - 1, item);
    }
  }

  /** Items that passed `OrderLineItem.create`'s checks never add up to a negative total. */
  lemma {:induction false} SumTotalsNonNegative(items: seq<OrderLineItem>)
    requires forall i | 0 <= i < |items| :: items[i].unitPrice >= 0.0 && items[i].quantity > 0
    ensures SumTotals(items) >= 0.0
  {
    if items != [] {
      SumTotalsNonNegative(items[1..]);
    }
  }

  /** The line items not for product `p`, in their original order (`removeIf`). */
  function WithoutProduct(items: seq<OrderLineItem>, p: ProductId): (r: seq<OrderLineItem>)
    ensures |r| <= |items|
    ensures forall i | 0 <= i < |r| :: r[i].productId != p
    ensures forall x :: x in r <==> x in items && x.productId != p
  {
    if items == [] then []
    else if items[0].productId == p then WithoutProduct(items[1..], p)
    else [items[0]] + WithoutProduct(items[1..], p)
  }

  /** Removal works piece by piece, so the survivors keep their relative order. */
  lemma {:induction false} WithoutProductAppend(a: seq<OrderLineItem>, b: seq<OrderLineItem>, p: ProductId)
    ensures WithoutProduct(a + b, p) == WithoutProduct(a, p) + WithoutProduct(b, p)
  {
    if a == [] {
      assert a + b == b;
    } else {
      assert (a + b)[1..] == a[1..] + b;
      WithoutProductAppend(a[1..], b, p);
    }
  }

  /** Removing a product that is not in the order keeps every item. */
  lemma {:induction false} WithoutAbsentProduct(items: seq<OrderLineItem>, p: ProductId)
    requires forall i | 0 <= i < |items| :: items[i].productId != p
    ensures WithoutProduct(items, p) == items
  {
    if items != [] {
      WithoutAbsentProduct(items[1..], p);
    }
  }

  /** `indexOfFirst`: the position of the first item for product `p`, or -1. */
  function IndexOfFirst(items: seq<OrderLineItem>, p: ProductId): (r: int)
    ensures -1 <= r < |items|
    ensures r == -1 <==> forall i | 0 <= i < |items| :: items[i].productId != p
    ensures 0 <= r ==> items[r].productId == p
    ensures 0 <= r ==> forall i | 0 <= i < r :: items[i].productId != p
  {
    if items == [] then -1
    else if items[0].productId == p then 0
    else
      var k := IndexOfFirst(items[1..], p);
      if k == -1 then -1 else k + 1
  }

  // ---------------------------------------------------------------------
  // Failure messages

  /** The refusal of a line-item edit outside PENDING; `action` names the edit. */
  function EditRefused(action: string, s: OrderStatus): string
  {
    "Cannot " + action + " order in " + Name(s) + " status. Only PENDING orders can be modified."
  }

  /**
   * `validateStateTransition`: a transition to `newStatus` is allowed only
   * from `expected`; otherwise it fails with an IllegalStateException that
   * names both ends and the required status.
   */
  function ValidateStateTransition(current: OrderStatus, expected: OrderStatus, newStatus: OrderStatus): (r: Outcome)
    ensures r.Pass? <==> current == expected
    ensures r.Fail? ==> r.error == IllegalState("Cannot transition from " + Name(current) + " to " + Name(newStatus)
                                               + ". Order must be in " + Name(expected) + " status.")
  {
    if current != expected then
      Fail(IllegalState("Cannot transition from " + Name(current) + " to " + Name(newStatus)
                        + ". Order must be in " + Name(expected) + " status."))
    else Pass
  }

  // ---------------------------------------------------------------------
  // The aggregate

  class Order {
    const id: Option<OrderId>
    const customerId: UserId
    const orderDate: Instant
    var status: OrderStatus
    var totalAmount: Money
    var auditInfo: Audit.AuditInfo
    var lineItems: seq<OrderLineItem>
    var domainEvents: seq<OrderEvent>

    /**
     * The invariant that creation establishes and line-item edits are
     * meant to keep: at least one line item, and the total is their sum.
     */
    predicate TotalsAgree()
      reads this
    {
      |lineItems| > 0 && totalAmount == SumTotals(lineItems)
    }

    /** The private constructor: every field as given, and no events yet. */
    constructor (id: Option<OrderId>, customerId: UserId, orderDate: Instant, status: OrderStatus,
                 totalAmount: Money, auditInfo: Audit.AuditInfo, lineItems: seq<OrderLineItem>)
      ensures this.id == id && this.customerId == customerId && this.orderDate == orderDate
      ensures this.status == status && this.totalAmount == totalAmount && this.auditInfo == auditInfo
      ensures this.lineItems == lineItems && this.domainEvents == []
    {
      this.id := id;
      this.customerId := customerId;
      this.orderDate := orderDate;
      this.status := status;
      this.totalAmount := totalAmount;
      this.auditInfo := auditInfo;
      this.lineItems := lineItems;
      this.domainEvents := [];
    }

    /**
     * `Order.create`: refuses an empty item list, then a total that is not
     * positive; otherwise a PENDING order without an id whose total is the
     * sum of the items and whose log holds exactly one OrderCreated event.
     * The source reads the clock twice (order date, audit info): `orderDate`
     * and `auditNow` are those two reads.
     */
    static method Create(actor: string, customerId: UserId, lineItems: seq<OrderLineItem>,
                         orderDate: Instant, auditNow: Instant) returns (r: Result<Order>)
      ensures r.Ok? <==> |lineItems| > 0 && SumTotals(lineItems) > 0.0
      ensures |lineItems| == 0 ==> r == Err(IllegalArgument("Order must have at least one line item"))
      ensures |lineItems| > 0 && SumTotals(lineItems) <= 0.0
              ==> r == Err(IllegalArgument("Total amount must be positive"))
      ensures r.Ok? ==> fresh(r.value)
      ensures r.Ok? ==> r.value.id == None && r.value.customerId == customerId && r.value.orderDate == orderDate
      ensures r.Ok? ==> r.value.status == PENDING && r.value.auditInfo == Audit.NewInstance(actor, auditNow)
      ensures r.Ok? ==> r.value.lineItems == lineItems && r.value.totalAmount == SumTotals(lineItems)
      ensures r.Ok? ==> r.value.TotalsAgree()
      ensures r.Ok? ==> r.value.domainEvents == [OrderEvent(OrderCreated, actor, r.value.Snapshot())]
      ensures r.Ok? ==> r.value.Snapshot().status == PENDING && r.value.Snapshot().lineItemCount == |lineItems|
    {
      if |lineItems| == 0 {
        return Err(IllegalArgument("Order must have at least one line item"));
      }
      var total := SumTotals(lineItems);
      if total <= 0.0 {
        return Err(IllegalArgument("Total amount must be positive"));
      }
      var order := new Order(None, customerId, orderDate, PENDING, total, Audit.NewInstance(actor, auditNow), lineItems);
      order.domainEvents := order.domainEvents + [OrderEvent(OrderCreated, actor, order.Snapshot())];
      r := Ok(order);
    }

    /**
     * `Order.reconstitute`: every stored value as given; the total is not
     * recomputed, the items are not checked, and the event log is empty.
     */
    static method Reconstitute(id: OrderId, customerId: UserId, orderDate: Instant, status: OrderStatus,
                               totalAmount: Money, auditInfo: Audit.AuditInfo, lineItems: seq<OrderLineItem>)
      returns (order: Order)
      ensures fresh(order)
      ensures order.id == Some(id) && order.customerId == customerId && order.orderDate == orderDate
      ensures order.status == status && order.totalAmount == totalAmount && order.auditInfo == auditInfo
      ensures order.lineItems == lineItems && order.domainEvents == []
    {
      order := new Order(Some(id), customerId, orderDate, status, totalAmount, auditInfo, lineItems);
    }

    /** `createEventPayload`: a snapshot of the order as it is now. */
    function Snapshot(): (p: OrderEventPayload)
      reads this
      ensures p.orderId == id && p.customerId == customerId && p.orderDate == orderDate
      ensures p.status == status && p.totalAmount == totalAmount && p.lineItemCount == |lineItems|
    {
      OrderEventPayload(id, customerId, orderDate, status, totalAmount, |lineItems|)
    }

    /** `getDomainEvents`: a copy of the log, oldest first. */
    method GetDomainEvents() returns (events: seq<OrderEvent>)
      ensures events == domainEvents
    {
      events := domainEvents;
    }

    /** `clearDomainEvents`: empties the log and touches nothing else. */
    method ClearDomainEvents()
      modifies this
      ensures domainEvents == []
      ensures status == old(status) && totalAmount == old(totalAmount) && auditInfo == old(auditInfo)
      ensures lineItems == old(lineItems)
    {
      domainEvents := [];
    }

    /**
     * `addLineItem`: only while PENDING; appends the item (even if its
     * product is already in the order), recomputes the total and records
     * the actor. Never records an event.
     */
    method AddLineItem(actor: string, item: OrderLineItem, now: Instant) returns (r: Outcome)
      modifies this
      ensures r.Pass? <==> old(status) == PENDING
      ensures r.Fail? ==> r.error == IllegalState(EditRefused("add line items to", old(status)))
      ensures r.Fail? ==> lineItems == old(lineItems) && totalAmount == old(totalAmount) && auditInfo == old(auditInfo)
      ensures r.Pass? ==> lineItems == old(lineItems) + [item] && TotalsAgree()
      ensures r.Pass? && old(totalAmount == SumTotals(lineItems)) ==> totalAmount == old(totalAmount) + TotalPrice(item)
      ensures r.Pass? ==> auditInfo == Audit.Update(old(auditInfo), actor, now)
      ensures status == old(status) && domainEvents == old(domainEvents)
    {
      if status != PENDING {
        return Fail(IllegalState(EditRefused("add line items to", status)));
      }
      SumTotalsAppend(lineItems, item);
      lineItems := lineItems + [item];
      totalAmount := SumTotals(lineItems);
      auditInfo := Audit.Update(auditInfo, actor, now);
      r := Pass;
    }

    /**
     * `removeLineItem`, as written: only while PENDING; drops every item for
     * the product (an absent product drops nothing). When nothing is left
     * it fails, but only after the items are already gone, leaving the
     * total and the audit info as they were.
     */
    method RemoveLineItem(actor: string, productId: ProductId, now: Instant) returns (r: Outcome)
      modifies this
      ensures old(status) != PENDING ==> r == Fail(IllegalState(EditRefused("remove line items from", old(status))))
      ensures old(status) != PENDING ==> lineItems == old(lineItems)
      ensures old(status) == PENDING ==> lineItems == WithoutProduct(old(lineItems), productId)
      ensures old(status) == PENDING ==> (r.Pass? <==> lineItems != [])
      ensures old(status) == PENDING && r.Fail? ==> r.error == IllegalState("Order must have at least one line item")
      ensures r.Fail? ==> totalAmount == old(totalAmount) && auditInfo == old(auditInfo)
      ensures r.Pass? ==> TotalsAgree() && auditInfo == Audit.Update(old(auditInfo), actor, now)
      ensures status == old(status) && domainEvents == old(domainEvents)
    {
      if status != PENDING {
        return Fail(IllegalState(EditRefused("remove line items from", status)));
      }
      lineItems := WithoutProduct(lineItems, productId);
      if lineItems == [] {
        return Fail(IllegalState("Order must have at least one line item"));
      }
      totalAmount := SumTotals(lineItems);
      auditInfo := Audit.Update(auditInfo, actor, now);
      r := Pass;
    }

    /**
     * `removeLineItem` as evidently intended: the emptiness check comes
     * before any change, so a refused removal leaves the order untouched
     * and the invariant holds whatever the outcome.
     */
    method RemoveLineItemAtomic(actor: string, productId: ProductId, now: Instant) returns (r: Outcome)
      modifies this
      ensures r.Pass? <==> old(status) == PENDING && WithoutProduct(old(lineItems), productId) != []
      ensures old(status) != PENDING ==> r == Fail(IllegalState(EditRefused("remove line items from", old(status))))
      ensures old(status) == PENDING && r.Fail? ==> r.error == IllegalState("Order must have at least one line item")
      ensures r.Fail? ==> lineItems == old(lineItems) && totalAmount == old(totalAmount) && auditInfo == old(auditInfo)
      ensures r.Pass? ==> lineItems == WithoutProduct(old(lineItems), productId) && TotalsAgree()
      ensures r.Pass? ==> auditInfo == Audit.Update(old(auditInfo), actor, now)
      ensures old(TotalsAgree()) ==> TotalsAgree()
      ensures status == old(status) && domainEvents == old(domainEvents)
    {
      if status != PENDING {
        return Fail(IllegalState(EditRefused("remove line items from", status)));
      }
      var remaining := WithoutProduct(lineItems, productId);
      if remaining == [] {
        return Fail(IllegalState("Order must have at least one line item"));
      }
      lineItems := remaining;
      totalAmount := SumTotals(lineItems);
      auditInfo := Audit.Update(auditInfo, actor, now);
      r := Pass;
    }

    /**
     * `updateLineItem`: only while PENDING; replaces the first item for the
     * same product, in place, and recomputes the total. Fails before any
     * change when no item is for that product.
     */
    method UpdateLineItem(actor: string, item: OrderLineItem, now: Instant) returns (r: Outcome)
      modifies this
      ensures old(status) != PENDING ==> r == Fail(IllegalState(EditRefused("update line items in", old(status))))
      ensures old(status) == PENDING && IndexOfFirst(old(lineItems), item.productId) == -1
              ==> r == Fail(IllegalArgument("Line item with product ID " + ProductIdToString(item.productId)
                                            + " not found in order"))
      ensures r.Pass? <==> old(status) == PENDING && IndexOfFirst(old(lineItems), item.productId) != -1
      ensures r.Fail? ==> lineItems == old(lineItems) && totalAmount == old(totalAmount) && auditInfo == old(auditInfo)
      ensures r.Pass? ==> var i := IndexOfFirst(old(lineItems), item.productId);
                          && lineItems == old(lineItems)[i := item]
                          && TotalsAgree()
                          && (old(totalAmount == SumTotals(lineItems))
                              ==> totalAmount == old(totalAmount) - TotalPrice(old(lineItems)[i]) + TotalPrice(item))
      ensures r.Pass? ==> auditInfo == Audit.Update(old(auditInfo), actor, now)
      ensures status == old(status) && domainEvents == old(domainEvents)
    {
      if status != PENDING {
        return Fail(IllegalState(EditRefused("update line items in", status)));
      }
      var index := IndexOfFirst(lineItems, item.productId);
      if index == -1 {
        return Fail(IllegalArgument("Line item with product ID " + ProductIdToString(item.productId)
                                    + " not found in order"));
      }
      SumTotalsReplace(lineItems, index, item);
      lineItems := lineItems[index := item];
      totalAmount := SumTotals(lineItems);
      auditInfo := Audit.Update(auditInfo, actor, now);
      r := Pass;
    }

    /** `pay`: PENDING to PAID, recording OrderPaid. */
    method Pay(actor: string, now: Instant) returns (r: Outcome)
      modifies this
      ensures r == ValidateStateTransition(old(status), PENDING, PAID)
      ensures r.Pass? <==> Next(Transition.Pay, old(status)).Some?
      ensures r.Pass? ==> status == Next(Transition.Pay, old(status)).value
      ensures r.Pass? ==> auditInfo == Audit.Update(old(auditInfo), actor, now)
      ensures r.Pass? ==> domainEvents == old(domainEvents) + [OrderEvent(EventOf(Transition.Pay), actor, Snapshot())]
      ensures r.Fail? ==> status == old(status) && auditInfo == old(auditInfo) && domainEvents == old(domainEvents)
      ensures lineItems == old(lineItems) && totalAmount == old(totalAmount)
    {
      r := ValidateStateTransition(status, PENDING, PAID);
      if r.Fail? {
        return;
      }
      status := PAID;
      auditInfo := Audit.Update(auditInfo, actor, now);
      domainEvents := domainEvents + [OrderEvent(OrderPaid, actor, Snapshot())];
    }

    /** `ship`: PAID to SHIPPED, recording OrderShipped. */
    method Ship(actor: string, now: Instant) returns (r: Outcome)
      modifies this
      ensures r == ValidateStateTransition(old(status), PAID, SHIPPED)
      ensures r.Pass? <==> Next(Transition.Ship, old(status)).Some?
      ensures r.Pass? ==> status == Next(Transition.Ship, old(status)).value
      ensures r.Pass? ==> auditInfo == Audit.Update(old(auditInfo), actor, now)
      ensures r.Pass? ==> domainEvents == old(domainEvents) + [OrderEvent(EventOf(Transition.Ship), actor, Snapshot())]
      ensures r.Fail? ==> status == old(status) && auditInfo == old(auditInfo) && domainEvents == old(domainEvents)
      ensures lineItems == old(lineItems) && totalAmount == old(totalAmount)
    {
      r := ValidateStateTransition(status, PAID, SHIPPED);
      if r.Fail? {
        return;
      }
      status := SHIPPED;
      auditInfo := Audit.Update(auditInfo, actor, now);
      domainEvents := domainEvents + [OrderEvent(OrderShipped, actor, Snapshot())];
    }

    /** `deliver`: SHIPPED to DELIVERED, recording OrderDelivered. */
    method Deliver(actor: string, now: Instant) returns (r: Outcome)
      modifies this
      ensures r == ValidateStateTransition(old(status), SHIPPED, DELIVERED)
      ensures r.Pass? <==> Next(Transition.Deliver, old(status)).Some?
      ensures r.Pass? ==> status == Next(Transition.Deliver, old(status)).value
      ensures r.Pass? ==> auditInfo == Audit.Update(old(auditInfo), actor, now)
      ensures r.Pass? ==> domainEvents == old(domainEvents) + [OrderEvent(EventOf(Transition.Deliver), actor, Snapshot())]
      ensures r.Fail? ==> status == old(status) && auditInfo == old(auditInfo) && domainEvents == old(domainEvents)
      ensures lineItems == old(lineItems) && totalAmount == old(totalAmount)
    {
      r := ValidateStateTransition(status, SHIPPED, DELIVERED);
      if r.Fail? {
        return;
      }
      status := DELIVERED;
      auditInfo := Audit.Update(auditInfo, actor, now);
      domainEvents := domainEvents + [OrderEvent(OrderDelivered, actor, Snapshot())];
    }

    /** `cancel`: PENDING or PAID to CANCELLED, recording OrderCancelled. */
    method Cancel(actor: string, now: Instant) returns (r: Outcome)
      modifies this
      ensures r.Pass? <==> Next(Transition.Cancel, old(status)).Some?
      ensures r.Fail? ==> r.error == IllegalState("Cannot cancel order in " + Name(old(status))
                                                 + " status. Only PENDING or PAID orders can be cancelled.")
      ensures r.Pass? ==> status == Next(Transition.Cancel, old(status)).value
      ensures r.Pass? ==> auditInfo == Audit.Update(old(auditInfo), actor, now)
      ensures r.Pass? ==> domainEvents == old(domainEvents) + [OrderEvent(EventOf(Transition.Cancel), actor, Snapshot())]
      ensures r.Fail? ==> status == old(status) && auditInfo == old(auditInfo) && domainEvents == old(domainEvents)
      ensures lineItems == old(lineItems) && totalAmount == old(totalAmount)
    {
      if status != PENDING && status != PAID {
        return Fail(IllegalState("Cannot cancel order in " + Name(status)
                                 + " status. Only PENDING or PAID orders can be cancelled."));
      }
      status := CANCELLED;
      auditInfo := Audit.Update(auditInfo, actor, now);
      domainEvents := domainEvents + [OrderEvent(OrderCancelled, actor, Snapshot())];
      r := Pass;
    }
  }

  // ---------------------------------------------------------------------
  // Scenarios: what callers can conclude from the contracts alone

  /** The kinds of the events in a log, in order. */
  function Kinds(events: seq<OrderEvent>): (ks: seq<EventKind>)
    ensures |ks| == |events|
    ensures forall i | 0 <= i < |events| :: ks[i] == events[i].kind
  {
    if events == [] then [] else [events[0].kind] + Kinds(events[1..])
  }

  /**
   * Create, pay, ship, deliver: the log reads created, paid, shipped,
   * delivered, and clearing it afterwards leaves the order delivered.
   */
  method FullLifecycle(actor: string, customerId: UserId, item: OrderLineItem, now: Instant)
    returns (order: Order, kinds: seq<EventKind>)
    requires TotalPrice(item) > 0.0
    ensures kinds == [OrderCreated, OrderPaid, OrderShipped, OrderDelivered]
    ensures order.status == DELIVERED && order.domainEvents == []
  {
    var created := Order.Create(actor, customerId, [item], now, now);
    assert SumTotals([item]) == TotalPrice(item);
    order := created.value;
    var r := order.Pay(actor, now);
    r := order.Ship(actor, now);
    r := order.Deliver(actor, now);
    var events := order.GetDomainEvents();
    kinds := Kinds(events);
    order.ClearDomainEvents();
  }

  /**
   * The removal defect: removing the only line item empties the order,
   * and its total still claims the removed item's price.
   */
  method RemoveOnlyItem(actor: string, customerId: UserId, item: OrderLineItem, now: Instant)
    returns (order: Order, r: Outcome)
    requires TotalPrice(item) > 0.0
    ensures r.Fail? && order.lineItems == []
    ensures order.totalAmount == TotalPrice(item) && order.totalAmount != SumTotals(order.lineItems)
    ensures !order.TotalsAgree()
  {
    var created := Order.Create(actor, customerId, [item], now, now);
    assert SumTotals([item]) == TotalPrice(item);
    order := created.value;
    r := order.RemoveLineItem(actor, item.productId, now);
  }
}
