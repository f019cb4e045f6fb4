/**
 * The identifier value classes: `ProductId`, `OrderId` and `UserId`. Each
 * wraps a `Long`, can only be built through `of`, which refuses values that
 * are not positive, and prints as its decimal value. Equality is equality
 * of the wrapped value, which is what Dafny's datatype equality gives.
 */
module Identifiers {
  import opened Base
  import opened Text

  /** The values an identifier can hold: 1 up to `Long.MAX_VALUE`. */
  type PositiveLong = x: int | 0 < x < 0x8000_0000_0000_0000 witness 1

  datatype ProductId = ProductId(value: PositiveLong)
  datatype OrderId = OrderId(value: PositiveLong)
  datatype UserId = UserId(value: PositiveLong)

  /** `ProductId.of`. */
  function ProductIdOf(value: Int64): (r: Result<ProductId>)
    ensures r.Ok? <==> value > 0
    ensures r.Ok? ==> r.value.value == value
    ensures r.Err? ==> r.error == IllegalArgument("Product ID must be positive")
  {
    if value > 0 then Ok(ProductId(value)) else Err(IllegalArgument("Product ID must be positive"))
  }

  /** `OrderId.of`. */
  function OrderIdOf(value: Int64): (r: Result<OrderId>)
    ensures r.Ok? <==> value > 0
    ensures r.Ok? ==> r.value.value == value
    ensures r.Err? ==> r.error == IllegalArgument("Order ID must be positive")
  {
    if value > 0 then Ok(OrderId(value)) else Err(IllegalArgument("Order ID must be positive"))
  }

  /** `UserId.of`. */
  function UserIdOf(value: Int64): (r: Result<UserId>)
    ensures r.Ok? <==> value > 0
    ensures r.Ok? ==> r.value.value == value
    ensures r.Err? ==> r.error == IllegalArgument("User ID must be positive")
  {
    if value > 0 then Ok(UserId(value)) else Err(IllegalArgument("User ID must be positive"))
  }

  /** `ProductId.toString`: the decimal digits of the value, read back exactly. */
  function ProductIdToString(id: ProductId): (s: string)
    ensures |s| > 0 && AllDigits(s) && s[0] != '0'
    ensures ParseDigits(s) == id.value
  {
    ParseNatToString(id.value);
    NatToString(id.value)
  }

  /** `OrderId.toString`. */
  function OrderIdToString(id: OrderId): (s: string)
    ensures |s| > 0 && AllDigits(s) && s[0] != '0'
    ensures ParseDigits(s) == id.value
  {
    ParseNatToString(id.value);
    NatToString(id.value)
  }

  /** `UserId.toString`. */
  function UserIdToString(id: UserId): (s: string)
    ensures |s| > 0 && AllDigits(s) && s[0] != '0'
    ensures ParseDigits(s) == id.value
  {
    ParseNatToString(id.value);
    NatToString(id.value)
  }

  /** Two successfully built product ids are equal exactly when their values are. */
  lemma ProductIdOfInjective(a: Int64, b: Int64)
    requires ProductIdOf(a).Ok? && ProductIdOf(b).Ok?
    ensures ProductIdOf(a) == ProductIdOf(b) <==> a == b
  {
  }

  /** Two successfully built order ids are equal exactly when their values are. */
  lemma OrderIdOfInjective(a: Int64, b: Int64)
    requires OrderIdOf(a).Ok? && OrderIdOf(b).Ok?
    ensures OrderIdOf(a) == OrderIdOf(b) <==> a == b
  {
  }

  /** Two successfully built user ids are equal exactly when their values are. */
  lemma UserIdOfInjective(a: Int64, b: Int64)
    requires UserIdOf(a).Ok? && UserIdOf(b).Ok?
    ensures UserIdOf(a) == UserIdOf(b) <==> a == b
  {
  }

  /** Product ids print differently exactly when they differ. */
  lemma ProductIdToStringInjective(a: ProductId, b: ProductId)
    ensures ProductIdToString(a) == ProductIdToString(b) <==> a == b
  {
    NatToStringInjective(a.value, b.value);
  }

  /** Order ids print differently exactly when they differ. */
  lemma OrderIdToStringInjective(a: OrderId, b: OrderId)
    ensures OrderIdToString(a) == OrderIdToString(b) <==> a == b
  {
    NatToStringInjective(a.value, b.value);
  }

  /** User ids print differently exactly when they differ. */
  lemma UserIdToStringInjective(a: UserId, b: UserId)
    ensures UserIdToString(a) == UserIdToString(b) <==> a == b
  {
    NatToStringInjective(a.value, b.value);
  }
}
