# Order domain model in Dafny

This project models the domain core of a small order-management service
written in Kotlin in a domain-driven style. Its centre is the `Order`
aggregate root: an order for a customer holds a list of line items, a
total amount, a status, audit information and a list of domain events not
yet published. An order starts PENDING. It can be paid, then shipped, then
delivered. It can be cancelled while PENDING or PAID. Only a PENDING order
accepts changes to its line items. Every status change records one domain
event.

Around the aggregate sit the value objects and entities it uses:

- `OrderLineItem` — a product, a quantity, a unit price and an optional
  list of bundle components.
- `BundleComponentItem` — one product inside a bundle, with its quantity.
- `OrderStatus` — the five statuses and their case-insensitive parsing.
- `AuditInfo` — who created and last updated a record, and when.
- The positive identifiers `ProductId`, `OrderId` and `UserId`.
- The `User` entity, with its name, email, login id and password.

Modules, one per source file:

| module | file | flavour |
|---|---|---|
| `Base` | base.dfy | shared types: 32/64-bit integers, money, instants, `Option`, `Result`, `Outcome`, the two Kotlin exception kinds |
| `Text` | text.dfy | JVM whitespace and blankness, upper-casing, decimal rendering of integers |
| `Identifiers` | identifiers.dfy | `ProductId`, `OrderId`, `UserId` |
| `Statuses` | order_status.dfy | `OrderStatus` |
| `Audit` | audit_info.dfy | `AuditInfo` |
| `Bundles` | bundle_component_item.dfy | `BundleComponentItem` |
| `LineItems` | order_line_item.dfy | `OrderLineItem` |
| `Events` | order_events.dfy | the five order events and their payload |
| `Orders` | order.dfy | the status machine, line-item list helpers, and the `Order` class |
| `Users` | user.dfy | `User` |

Modelling choices:

- Immutable Kotlin types are Dafny datatypes with pure functions. The
  "copy with a change" methods of `OrderLineItem`, `BundleComponentItem`,
  `AuditInfo` and `User` become functions that return the new value.
- `Order` mutates its own fields, so it is a Dafny `class`. Its mutable
  lists are `seq` fields that the methods reassign, and every method
  states the whole new state.
- A thrown `IllegalArgumentException` or `IllegalStateException` becomes an
  `Err` result, or a `Fail` outcome for an `Order` method. The message text
  is kept exactly.
- `BigDecimal` amounts are exact `real`s. `Int` quantities are 32-bit
  integers and `Long` identifiers are 64-bit integers.
- Every read of the clock (`Instant.now()`) is a parameter. The acting
  user taken from the domain context is a parameter, too.

## Model

| member | source | states |
|---|---|---|
| Identifiers.ProductIdOf | domain/src/main/kotlin/com/example/domain/model/order/ProductId.kt:12-15 | succeeds exactly when the value is positive, and then keeps it; otherwise an IllegalArgument error "Product ID must be positive" |
| Identifiers.OrderIdOf | domain/src/main/kotlin/com/example/domain/model/order/OrderId.kt:12-15 | succeeds exactly for positive values and keeps them; otherwise "Order ID must be positive" |
| Identifiers.UserIdOf | domain/src/main/kotlin/com/example/domain/model/user/UserId.kt:12-15 | succeeds exactly for positive values and keeps them; otherwise "User ID must be positive" |
| Identifiers.ProductIdToString | domain/src/main/kotlin/com/example/domain/model/order/ProductId.kt:18 | the text is a non-empty run of decimal digits without a leading zero that reads back as the id's value |
| Identifiers.OrderIdToString | domain/src/main/kotlin/com/example/domain/model/order/OrderId.kt:18 | the text is decimal digits without a leading zero that read back as the value |
| Identifiers.UserIdToString | domain/src/main/kotlin/com/example/domain/model/user/UserId.kt:18 | the text is decimal digits without a leading zero that read back as the value |
| Identifiers.ProductIdOfInjective | domain/src/main/kotlin/com/example/domain/model/order/ProductId.kt:6-15 | two ids built from values are equal exactly when the values are equal |
| Identifiers.OrderIdOfInjective | domain/src/main/kotlin/com/example/domain/model/order/OrderId.kt:6-15 | two order ids are equal exactly when their values are equal |
| Identifiers.UserIdOfInjective | domain/src/main/kotlin/com/example/domain/model/user/UserId.kt:6-15 | two user ids are equal exactly when their values are equal |
| Identifiers.ProductIdToStringInjective | domain/src/main/kotlin/com/example/domain/model/order/ProductId.kt:18 | different product ids never print the same |
| Identifiers.OrderIdToStringInjective | domain/src/main/kotlin/com/example/domain/model/order/OrderId.kt:18 | different order ids never print the same |
| Identifiers.UserIdToStringInjective | domain/src/main/kotlin/com/example/domain/model/user/UserId.kt:18 | different user ids never print the same |
| Text.ParseNatToString | domain/src/main/kotlin/com/example/domain/model/order/ProductId.kt:18 | reading back the decimal rendering of a number gives the number |
| Text.NatToStringInjective | domain/src/main/kotlin/com/example/domain/model/order/ProductId.kt:18 | the decimal rendering is injective |
| Statuses.Name | domain/src/main/kotlin/com/example/domain/model/order/OrderStatus.kt:7-31 | each status name is a word of four to nine capital letters |
| Statuses.FromString | domain/src/main/kotlin/com/example/domain/model/order/OrderStatus.kt:37-46 | succeeds exactly when the upper-cased text is one of the five names, and then returns the status of that name; otherwise an IllegalArgument error "Unknown order status: " followed by the input |
| Statuses.ToString | domain/src/main/kotlin/com/example/domain/model/order/OrderStatus.kt:49 | the text is exactly the status's capitalised name, and parsing it gives the status back |
| Statuses.FromStringName | domain/src/main/kotlin/com/example/domain/model/order/OrderStatus.kt:11-46 | parsing a status's name gives that status |
| Statuses.NameInjective | domain/src/main/kotlin/com/example/domain/model/order/OrderStatus.kt:11-31 | distinct statuses have distinct names |
| Statuses.NameIsUppercase | domain/src/main/kotlin/com/example/domain/model/order/OrderStatus.kt:11-31 | every status name is unchanged by upper-casing |
| Statuses.FromStringIgnoresCase | domain/src/main/kotlin/com/example/domain/model/order/OrderStatus.kt:38 | two inputs with the same upper-cased form parse to the same result |
| Statuses.LowercaseNames | domain/src/main/kotlin/com/example/domain/model/order/OrderStatus.kt:38-43 | for every status, the lower-case form of its name ("pending", "paid", "shipped", "delivered", "cancelled") parses to that status |
| Audit.NewInstance | domain/src/main/kotlin/com/example/domain/model/common/AuditInfo.kt:19-22 | creator and updater are the given user, and both times are the given instant |
| Audit.Of | domain/src/main/kotlin/com/example/domain/model/common/AuditInfo.kt:27-34 | keeps all four given values |
| Audit.Update | domain/src/main/kotlin/com/example/domain/model/common/AuditInfo.kt:40-42 | keeps the creation fields and sets the updater and update time |
| Audit.UpdateUpdate | domain/src/main/kotlin/com/example/domain/model/common/AuditInfo.kt:40-42 | two updates in a row equal the second update alone |
| Audit.UpdateKeepsCreation | domain/src/main/kotlin/com/example/domain/model/common/AuditInfo.kt:19-42 | any update of a fresh record still names the original creator and creation time |
| Bundles.Create | domain/src/main/kotlin/com/example/domain/model/order/BundleComponentItem.kt:16-29 | fails "Component name cannot be blank" for a blank name, else "Quantity must be positive" for a non-positive quantity, else keeps all fields |
| Bundles.Reconstitute | domain/src/main/kotlin/com/example/domain/model/order/BundleComponentItem.kt:34-44 | keeps all fields without validation |
| Bundles.UpdateQuantity | domain/src/main/kotlin/com/example/domain/model/order/BundleComponentItem.kt:55-63 | fails for a non-positive quantity; otherwise changes only the quantity |
| Bundles.IsSameProduct | domain/src/main/kotlin/com/example/domain/model/order/BundleComponentItem.kt:68-70 | true exactly when the two product ids hold the same number |
| Bundles.IsProduct | domain/src/main/kotlin/com/example/domain/model/order/BundleComponentItem.kt:75-77 | true exactly when the component's product id holds the given number |
| Bundles.Equals | domain/src/main/kotlin/com/example/domain/model/order/BundleComponentItem.kt:79-83 | equality is the same-product check |
| Bundles.EqualsIsSameProduct | domain/src/main/kotlin/com/example/domain/model/order/BundleComponentItem.kt:68-83 | equality is exactly "same product id", also when asked through the product-id check |
| Bundles.EqualsIsEquivalence | domain/src/main/kotlin/com/example/domain/model/order/BundleComponentItem.kt:79-83 | equality is reflexive, symmetric and transitive |
| Bundles.UpdateQuantityKeepsIdentity | domain/src/main/kotlin/com/example/domain/model/order/BundleComponentItem.kt:55-83 | an updated component equals the original |
| Bundles.ToString | domain/src/main/kotlin/com/example/domain/model/order/BundleComponentItem.kt:89-91 | the text is the class name, then the decimal product id, then ", componentName='<name>', quantity=<q>)" with the component's name and quantity |
| Bundles.ToStringIdentifiesProduct | domain/src/main/kotlin/com/example/domain/model/order/BundleComponentItem.kt:79-91 | components with the same text are equal |
| LineItems.Create | domain/src/main/kotlin/com/example/domain/model/order/OrderLineItem.kt:20-36 | fails for a blank name, then for a non-positive quantity, then for a negative unit price, with the source's messages; otherwise keeps the fields, has no bundle components and a non-negative total |
| LineItems.Reconstitute | domain/src/main/kotlin/com/example/domain/model/order/OrderLineItem.kt:41-55 | keeps all fields including the components, without validation |
| LineItems.TotalPrice | domain/src/main/kotlin/com/example/domain/model/order/OrderLineItem.kt:71 | is zero for a zero price, the unit price for one unit, and never negative for a valid item |
| LineItems.UpdateQuantity | domain/src/main/kotlin/com/example/domain/model/order/OrderLineItem.kt:76-86 | fails for a non-positive quantity; otherwise changes only the quantity |
| LineItems.AddBundleComponent | domain/src/main/kotlin/com/example/domain/model/order/OrderLineItem.kt:91-102 | appends the component, so the item has components, contains the product, and its quantity of that product grows by the component's quantity |
| LineItems.RemoveBundleComponent | domain/src/main/kotlin/com/example/domain/model/order/OrderLineItem.kt:107-118 | removes every component of the product, so it is no longer contained and its quantity is 0, while other products' quantities are unchanged |
| LineItems.WithoutComponent | domain/src/main/kotlin/com/example/domain/model/order/OrderLineItem.kt:109 | keeps exactly the components of other products, and never lengthens the list; that the survivors keep their order is WithoutComponentAppend |
| LineItems.WithoutComponentAppend | domain/src/main/kotlin/com/example/domain/model/order/OrderLineItem.kt:109 | filtering distributes over concatenation |
| LineItems.WithoutAbsentComponent | domain/src/main/kotlin/com/example/domain/model/order/OrderLineItem.kt:109 | filtering out an absent product changes nothing |
| LineItems.WithoutComponentShrinks | domain/src/main/kotlin/com/example/domain/model/order/OrderLineItem.kt:107-130 | removing a product shortens the component list exactly when some component is for that product |
| LineItems.HasBundleComponents | domain/src/main/kotlin/com/example/domain/model/order/OrderLineItem.kt:123 | true exactly when the item contains some product among its components |
| LineItems.ContainsComponent | domain/src/main/kotlin/com/example/domain/model/order/OrderLineItem.kt:128-130 | true exactly when removing that product would take a component away |
| LineItems.QuantitySumAppend | domain/src/main/kotlin/com/example/domain/model/order/OrderLineItem.kt:135-139 | the exact quantity sum distributes over concatenation |
| LineItems.QuantitySumWithout | domain/src/main/kotlin/com/example/domain/model/order/OrderLineItem.kt:107-139 | removing one product's components leaves the sum for every other product unchanged and makes its own sum 0 |
| LineItems.QuantitySumPositive | domain/src/main/kotlin/com/example/domain/model/order/OrderLineItem.kt:128-139 | with positive quantities, the sum is positive exactly when the product is present |
| LineItems.ComponentQuantity | domain/src/main/kotlin/com/example/domain/model/order/OrderLineItem.kt:135-139 | the 32-bit sum as written: congruent to the exact sum modulo 2^32 and equal to it whenever it fits |
| LineItems.ComponentQuantityOverflows | domain/src/main/kotlin/com/example/domain/model/order/OrderLineItem.kt:135-139 | two components of 2147483647 units have exact quantity 4294967294 but the 32-bit sum reports -2 |
| LineItems.ExactComponentQuantity | domain/src/main/kotlin/com/example/domain/model/order/OrderLineItem.kt:128-139 | 0 for an absent product; with positive quantities, positive exactly when the product is contained |
| LineItems.Equals | domain/src/main/kotlin/com/example/domain/model/order/OrderLineItem.kt:141-145 | true exactly when the two product ids hold the same number |
| LineItems.EqualsIgnoresDetails | domain/src/main/kotlin/com/example/domain/model/order/OrderLineItem.kt:141-145 | two line items are equal exactly when their product ids are equal, whatever their other fields |
| LineItems.CopiesKeepIdentity | domain/src/main/kotlin/com/example/domain/model/order/OrderLineItem.kt:76-145 | quantity updates and component changes give an item equal to the original |
| Orders.NextMovesForward | domain/src/main/kotlin/com/example/domain/model/order/Order.kt:189-241 | every allowed transition strictly raises the status rank and never returns to PENDING, and DELIVERED and CANCELLED admit no transition |
| Orders.NextSources | domain/src/main/kotlin/com/example/domain/model/order/Order.kt:189-241 | pay is allowed exactly from PENDING and leads to PAID, ship from PAID to SHIPPED, deliver from SHIPPED to DELIVERED, cancel from PENDING or PAID to CANCELLED |
| Orders.RunRecordsAtMostThree | domain/src/main/kotlin/com/example/domain/model/order/Order.kt:189-241 | any sequence of transitions records at most three events after creation |
| Orders.RunFromTerminal | domain/src/main/kotlin/com/example/domain/model/order/Order.kt:189-250 | from DELIVERED or CANCELLED every transition is refused |
| Orders.Lifecycle | domain/src/main/kotlin/com/example/domain/model/order/Order.kt:189-225 | pay, ship, deliver takes PENDING to DELIVERED with events paid, shipped, delivered |
| Orders.SumTotalsAppend | domain/src/main/kotlin/com/example/domain/model/order/Order.kt:141-142 | appending an item adds its total price to the order total |
| Orders.SumTotalsReplace | domain/src/main/kotlin/com/example/domain/model/order/Order.kt:180-181 | replacing one item changes the total by the difference of the two items' prices |
| Orders.SumTotalsNonNegative | domain/src/main/kotlin/com/example/domain/model/order/Order.kt:35 | items that each have a non-negative unit price and a positive quantity, as `OrderLineItem.create` ensures, have a non-negative total |
| Orders.WithoutProduct | domain/src/main/kotlin/com/example/domain/model/order/Order.kt:155 | keeps exactly the items of other products, and never lengthens the list; that the survivors keep their order is WithoutProductAppend |
| Orders.WithoutProductAppend | domain/src/main/kotlin/com/example/domain/model/order/Order.kt:155 | the removal filter distributes over concatenation |
| Orders.WithoutAbsentProduct | domain/src/main/kotlin/com/example/domain/model/order/Order.kt:155 | removing an absent product changes nothing |
| Orders.IndexOfFirst | domain/src/main/kotlin/com/example/domain/model/order/Order.kt:174 | -1 exactly when no item has the product; otherwise the first index holding it |
| Orders.ValidateStateTransition | domain/src/main/kotlin/com/example/domain/model/order/Order.kt:246-250 | passes exactly when the current status is the expected one; otherwise an IllegalState error "Cannot transition from <current> to <target>. Order must be in <expected> status." |
| Orders.Order.constructor | domain/src/main/kotlin/com/example/domain/model/order/Order.kt:14-23 | sets every field and starts with no events |
| Orders.Order.Create | domain/src/main/kotlin/com/example/domain/model/order/Order.kt:28-52 | fails for an empty list, then for a non-positive total; otherwise a new PENDING order without id whose total is the sum of item prices, audited by the actor, with one OrderCreated event carrying its snapshot |
| Orders.Order.Reconstitute | domain/src/main/kotlin/com/example/domain/model/order/Order.kt:57-75 | a new order holding exactly the given fields and no events |
| Orders.Order.Snapshot | domain/src/main/kotlin/com/example/domain/model/order/Order.kt:121-130 | the payload carries the order's id, customer, date, status, total and number of line items |
| Orders.Order.GetDomainEvents | domain/src/main/kotlin/com/example/domain/model/order/Order.kt:101 | returns the pending events and changes nothing |
| Orders.Order.ClearDomainEvents | domain/src/main/kotlin/com/example/domain/model/order/Order.kt:114-116 | empties the events and changes nothing else |
| Orders.Order.AddLineItem | domain/src/main/kotlin/com/example/domain/model/order/Order.kt:136-144 | outside PENDING fails and changes nothing; otherwise appends the item, adds its price to the total and updates the audit |
| Orders.Order.RemoveLineItem | domain/src/main/kotlin/com/example/domain/model/order/Order.kt:150-163 | as written: outside PENDING changes nothing; removes every item of the product, and if none remain fails with the list already emptied |
| Orders.Order.RemoveLineItemAtomic | domain/src/main/kotlin/com/example/domain/model/order/Order.kt:150-163 | the corrected removal: fails without any change when nothing would remain; otherwise removes the product's items, recomputes the total and keeps totals consistent |
| Orders.Order.UpdateLineItem | domain/src/main/kotlin/com/example/domain/model/order/Order.kt:169-183 | outside PENDING or for an absent product fails without change; otherwise replaces the first matching item and recomputes the total |
| Orders.Order.Pay | domain/src/main/kotlin/com/example/domain/model/order/Order.kt:189-197 | from PENDING moves to PAID, updates the audit and appends one OrderPaid event with the new snapshot; otherwise fails without change |
| Orders.Order.Ship | domain/src/main/kotlin/com/example/domain/model/order/Order.kt:203-211 | from PAID moves to SHIPPED with one OrderShipped event; otherwise fails without change |
| Orders.Order.Deliver | domain/src/main/kotlin/com/example/domain/model/order/Order.kt:217-225 | from SHIPPED moves to DELIVERED with one OrderDelivered event; otherwise fails without change |
| Orders.Order.Cancel | domain/src/main/kotlin/com/example/domain/model/order/Order.kt:231-241 | from PENDING or PAID moves to CANCELLED with one OrderCancelled event; otherwise fails with the cancel message and no change |
| Orders.FullLifecycle | domain/src/test/kotlin/com/example/domain/model/order/OrderDomainEventsKotestTest.kt:81-107 | create, pay, ship, deliver records the four events in order and clearing leaves none |
| Orders.RemoveOnlyItem | domain/src/main/kotlin/com/example/domain/model/order/Order.kt:150-163 | removing the only item of a new order fails but leaves an empty list with a stale positive total |
| Users.Create | domain/src/main/kotlin/com/example/domain/model/user/User.kt:21-41 | fails for a blank name, email, login id or password, in that order, with the source's messages; otherwise a user without id holding the fields, whose audit record names `createdBy` as creator and updater at the given instant |
| Users.Reconstitute | domain/src/main/kotlin/com/example/domain/model/user/User.kt:46-62 | keeps all fields without validation |
| Users.Update | domain/src/main/kotlin/com/example/domain/model/user/User.kt:68-84 | fails for a blank name or email; otherwise changes only name, email and audit update fields |
| Users.UpdatePassword | domain/src/main/kotlin/com/example/domain/model/user/User.kt:89-103 | fails for a blank password; otherwise changes only the password, and updates the audit record with the updater and time while keeping its creation fields |
| Users.VerifyPassword | domain/src/main/kotlin/com/example/domain/model/user/User.kt:108-110 | true exactly when the given text has the stored password's length and characters |
| Users.GetPassword | domain/src/main/kotlin/com/example/domain/model/user/User.kt:115 | the returned password verifies, and it is the only text that does |
| Users.PasswordChanges | domain/src/main/kotlin/com/example/domain/model/user/User.kt:89-115 | after a password change the new password verifies, the old one does not unless equal, and the getter returns the new one |

## Left out

- Persistence, application services, web controllers and DTOs are outside
  this domain core.
- Each domain event's random UUID and its creation timestamp are not
  modelled. Of the domain context, only the acting user id is kept.
- Every clock read becomes a parameter. `Order.create` reads the clock
  twice, for the order date and for the audit record. `Orders.Order.Create`
  therefore takes two instants and does not relate them.
- `BigDecimal` scale is not modelled. Amounts are exact reals, so 1.0 and
  1.00 are the same amount, as `compareTo` in the source treats them.
- `hashCode` methods, `OrderLineItem.toString`, and the plain getters of
  `Order` and `OrderLineItem` (status, total, audit, line items, quantity,
  components) are not modelled. The model reads the fields directly, and
  the getters' defensive copies make no difference for values.
- Kotlin's private constructors are not enforced. Dafny's datatype
  constructors are public. Positivity of identifiers is still enforced by
  their subset type.
- `Order.reconstitute` and `OrderLineItem.reconstitute` give their lists a
  default empty value in Kotlin. In the model the caller passes the list.
- `Text.Uppercase` maps ASCII a–z, U+0131 and U+017F, the only characters
  whose upper case is a letter of a status name. Other characters are kept
  as they are. So the parse result of `Statuses.FromString` is exact, but
  the upper-cased text is not the full Unicode mapping.
- LineItems.TotalPrice: its contract gives the zero, one-unit and sign
  laws. The product of unit price and quantity is the definition itself.
- `ProductId`, `OrderId` and `UserId` define no ordering (they are not
  `Comparable`), so none is modelled.
- `Order.create` refuses an empty list with "Order must have at least one
  line item" (Order.kt:33), and `removeLineItem` throws the same message
  (Order.kt:158). Yet `reconstitute` accepts any list, and `removeLineItem`
  empties the list before it throws (see Findings). The model follows the
  code in both.

## Findings

| source | as written | input that shows it | evidently intended | confidence | as-written member | corrected member |
|---|---|---|---|---|---|---|
| domain/src/main/kotlin/com/example/domain/model/order/Order.kt:155-159 | the items are removed before the emptiness check, so a refused removal leaves the order with no line items and the old positive total | a new PENDING order with one item of positive price; remove that item's product (`Orders.RemoveOnlyItem`) | keep the rule that `create` enforces with the same message (Order.kt:33): check first that an item would remain, and leave the order unchanged when the removal is refused | medium, not executed | Orders.Order.RemoveLineItem | Orders.Order.RemoveLineItemAtomic |
| domain/src/main/kotlin/com/example/domain/model/order/OrderLineItem.kt:135-139 | the component quantities are summed as 32-bit `Int`s, which wrap past 2147483647 | two components of the same product, each with quantity 2147483647: the result is -2 | the exact total quantity | low, not executed | LineItems.ComponentQuantity | LineItems.ExactComponentQuantity |
