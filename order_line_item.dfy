/**
 * `OrderLineItem`: one product in an order, with its quantity, unit price
 * and the components of a bundle. Every operation returns a new value (the
 * source copies the component list each time), and identity is the product
 * id alone.
 */
module LineItems {
  import opened Base
  import opened Text
  import opened Identifiers
  import opened Bundles

  datatype OrderLineItem = OrderLineItem(
    productId: ProductId,
    productName: string,
    quantity: Int32,
    unitPrice: Money,
    bundleComponents: seq<BundleComponentItem>)

  /**
   * `OrderLineItem.create`: the name must not be blank, the quantity must be
   * positive and the unit price must not be negative, checked in that
   * order. A new line item has no bundle components.
   */
  function Create(productId: ProductId, productName: string, quantity: Int32, unitPrice: Money): (r: Result<OrderLineItem>)
    ensures r.Ok? <==> !IsBlank(productName) && quantity > 0 && unitPrice >= 0.0
    ensures IsBlank(productName) ==> r == Err(IllegalArgument("Product name cannot be blank"))
    ensures !IsBlank(productName) && quantity <= 0 ==> r == Err(IllegalArgument("Quantity must be positive"))
    ensures !IsBlank(productName) && quantity > 0 && unitPrice < 0.0
            ==> r == Err(IllegalArgument("Unit price cannot be negative"))
    ensures r.Ok? ==> r.value.productId == productId && r.value.productName == productName
    ensures r.Ok? ==> r.value.quantity == quantity && r.value.unitPrice == unitPrice
    ensures r.Ok? ==> !HasBundleComponents(r.value) && TotalPrice(r.value) >= 0.0
  {
    if IsBlank(productName) then Err(IllegalArgument("Product name cannot be blank"))
    else if quantity <= 0 then Err(IllegalArgument("Quantity must be positive"))
    else if unitPrice < 0.0 then Err(IllegalArgument("Unit price cannot be negative"))
    else Ok(OrderLineItem(productId, productName, quantity, unitPrice, []))
  }

  /** `OrderLineItem.reconstitute`: the stored values, taken without any check. */
  function Reconstitute(productId: ProductId, productName: string, quantity: Int32, unitPrice: Money,
                        bundleComponents: seq<BundleComponentItem>): (item: OrderLineItem)
    ensures item.productId == productId && item.productName == productName
    ensures item.quantity == quantity && item.unitPrice == unitPrice
    ensures item.bundleComponents == bundleComponents
  {
    OrderLineItem(productId, productName, quantity, unitPrice, bundleComponents)
  }

  /**
   * `getTotalPrice`: unit price times quantity, exactly. A free item costs
   * nothing, one unit costs the unit price, and an item that passed
   * `create`'s checks never costs a negative amount.
   */
  function TotalPrice(item: OrderLineItem): (r: Money)
    ensures item.unitPrice == 0.0 ==> r == 0.0
    ensures item.quantity == 1 ==> r == item.unitPrice
    ensures item.unitPrice >= 0.0 && item.quantity >= 0 ==> r >= 0.0
  {
    item.unitPrice * item.quantity as real
  }

  /** `updateQuantity`: a copy with the new quantity, which must be positive. */
  function UpdateQuantity(item: OrderLineItem, newQuantity: Int32): (r: Result<OrderLineItem>)
    ensures r.Ok? <==> newQuantity > 0
    ensures r.Err? ==> r.error == IllegalArgument("Quantity must be positive")
    ensures r.Ok? ==> r.value.quantity == newQuantity
    ensures r.Ok? ==> r.value.productId == item.productId && r.value.productName == item.productName
    ensures r.Ok? ==> r.value.unitPrice == item.unitPrice && r.value.bundleComponents == item.bundleComponents
  {
    if newQuantity <= 0 then Err(IllegalArgument("Quantity must be positive"))
    else Ok(item.(quantity := newQuantity))
  }

  /** The components of `cs` not for product `p`, in their original order (`removeIf`). */
  function WithoutComponent(cs: seq<BundleComponentItem>, p: ProductId): (r: seq<BundleComponentItem>)
    ensures |r| <= |cs|
    ensures forall i | 0 <= i < |r| :: r[i].componentProductId != p
    ensures forall c :: c in r <==> c in cs && c.componentProductId != p
  {
    if cs == [] then []
    else if cs[0].componentProductId == p then WithoutComponent(cs[1..], p)
    else [cs[0]] + WithoutComponent(cs[1..], p)
  }

  /** Removal works piece by piece, so the survivors keep their relative order. */
  lemma {:induction false} WithoutComponentAppend(a: seq<BundleComponentItem>, b: seq<BundleComponentItem>, p: ProductId)
    ensures WithoutComponent(a + b, p) == WithoutComponent(a, p) + WithoutComponent(b, p)
  {
    if a != [] {
      assert (a + b)[1..] == a[1..] + b;
      WithoutComponentAppend(a[1..], b, p);
    } else {
      assert a + b == b;
    }
  }

  /** Removing a product that is not there changes nothing. */
  lemma {:induction false} WithoutAbsentComponent(cs: seq<BundleComponentItem>, p: ProductId)
    requires forall i | 0 <= i < |cs| :: cs[i].componentProductId != p
    ensures WithoutComponent(cs, p) == cs
  {
    if cs != [] {
      WithoutAbsentComponent(cs[1..], p);
    }
  }

  /** The sum of the quantities of the components of `cs` for product `p`, in unbounded integers. */
  function QuantitySum(cs: seq<BundleComponentItem>, p: ProductId): int
  {
    if cs == [] then 0
    else (if cs[0].componentProductId == p then cs[0].quantity else 0) + QuantitySum(cs[1..], p)
  }

  lemma {:induction false} QuantitySumAppend(a: seq<BundleComponentItem>, b: seq<BundleComponentItem>, p: ProductId)
    ensures QuantitySum(a + b, p) == QuantitySum(a, p) + QuantitySum(b, p)
  {
    if a != [] {
      assert (a + b)[1..] == a[1..] + b;
      QuantitySumAppend(a[1..], b, p);
    } else {
      assert a + b == b;
    }
  }

  /** Components of other products do not count towards `p`'s quantity. */
  lemma {:induction false} QuantitySumWithout(cs: seq<BundleComponentItem>, p: ProductId, q: ProductId)
    ensures QuantitySum(WithoutComponent(cs, p), q) == if p == q then 0 else QuantitySum(cs, q)
  {
    if cs != [] {
      QuantitySumWithout(cs[1..], p, q);
    }
  }

  /** Removing product `p` shortens the list exactly when some component is for `p`. */
  lemma {:induction false} WithoutComponentShrinks(cs: seq<BundleComponentItem>, p: ProductId)
    ensures |WithoutComponent(cs, p)| < |cs| <==> exists i | 0 <= i < |cs| :: cs[i].componentProductId == p
  {
    if cs != [] {
      WithoutComponentShrinks(cs[1..], p);
      if cs[0].componentProductId != p {
        if exists i | 0 <= i < |cs| :: cs[i].componentProductId == p {
          var i :| 0 <= i < |cs| && cs[i].componentProductId == p;
          assert cs[1..][i - 1].componentProductId == p;
        }
        if exists j | 0 <= j < |cs[1..]| :: cs[1..][j].componentProductId == p {
          var j :| 0 <= j < |cs[1..]| && cs[1..][j].componentProductId == p;
          assert cs[j + 1].componentProductId == p;
        }
      }
    }
  }

  /** `hasBundleComponents`: the item lists some product among its components. */
  predicate HasBundleComponents(item: OrderLineItem): (b: bool)
    ensures b <==> exists p :: ContainsComponent(item, p)
  {
    if |item.bundleComponents| > 0 then
      assert ContainsComponent(item, item.bundleComponents[0].componentProductId);
      true
    else false
  }

  /**
   * `containsComponent`: some component is for product `p`, so removing
   * `p` would take something away.
   */
  predicate ContainsComponent(item: OrderLineItem, p: ProductId): (b: bool)
    ensures b <==> |WithoutComponent(item.bundleComponents, p)| < |item.bundleComponents|
  {
    WithoutComponentShrinks(item.bundleComponents, p);
    exists i | 0 <= i < |item.bundleComponents| :: item.bundleComponents[i].componentProductId == p
  }

  /**
   * `getComponentQuantity` as written: the matching quantities are summed
   * in `Int`, so a sum past `Int.MAX_VALUE` wraps around.
   */
  function ComponentQuantity(item: OrderLineItem, p: ProductId): (r: Int32)
    ensures (r - QuantitySum(item.bundleComponents, p)) % TWO_TO_THE_32 == 0
    ensures -0x8000_0000 <= QuantitySum(item.bundleComponents, p) < 0x8000_0000
            ==> r == QuantitySum(item.bundleComponents, p)
  {
    WrapInt32(QuantitySum(item.bundleComponents, p))
  }

  /**
   * `getComponentQuantity` as evidently intended: the exact total. With
   * only positive quantities it is positive exactly when the product is a
   * component, and zero otherwise.
   */
  function ExactComponentQuantity(item: OrderLineItem, p: ProductId): (r: int)
    ensures !ContainsComponent(item, p) ==> r == 0
    ensures (forall i | 0 <= i < |item.bundleComponents| :: item.bundleComponents[i].quantity > 0)
            ==> (r > 0 <==> ContainsComponent(item, p))
  {
    QuantitySumPositive(item.bundleComponents, p);
    QuantitySum(item.bundleComponents, p)
  }

  lemma {:induction false} QuantitySumPositive(cs: seq<BundleComponentItem>, p: ProductId)
    ensures (forall i | 0 <= i < |cs| :: cs[i].componentProductId != p) ==> QuantitySum(cs, p) == 0
    ensures (forall i | 0 <= i < |cs| :: cs[i].quantity > 0)
            ==> (QuantitySum(cs, p) > 0 <==> exists i | 0 <= i < |cs| :: cs[i].componentProductId == p)
  {
    if cs != [] {
      QuantitySumPositive(cs[1..], p);
      if cs[0].componentProductId != p {
        assert (exists i | 0 <= i < |cs| :: cs[i].componentProductId == p)
           <==> (exists i | 0 <= i < |cs[1..]| :: cs[1..][i].componentProductId == p);
      }
    }
  }

  /** Two components of the same product, each at `Int.MAX_VALUE`, report a negative quantity. */
  lemma ComponentQuantityOverflows(item: OrderLineItem, p: ProductId)
    requires item.bundleComponents == [BundleComponentItem(p, "A", 0x7fff_ffff), BundleComponentItem(p, "B", 0x7fff_ffff)]
    ensures ExactComponentQuantity(item, p) == 0xffff_fffe
    ensures ComponentQuantity(item, p) == -2
  {
    var cs := item.bundleComponents;
    assert cs[1..][1..] == [];
    assert QuantitySum(cs[1..], p) == 0x7fff_ffff;
    assert QuantitySum(cs, p) == 0xffff_fffe;
  }

  /**
   * `addBundleComponent`: a copy with the component appended at the end,
   * whether or not its product is already a component.
   */
  function AddBundleComponent(item: OrderLineItem, component: BundleComponentItem): (r: OrderLineItem)
    ensures r.bundleComponents == item.bundleComponents + [component]
    ensures r.productId == item.productId && r.productName == item.productName
    ensures r.quantity == item.quantity && r.unitPrice == item.unitPrice
    ensures HasBundleComponents(r) && ContainsComponent(r, component.componentProductId)
    ensures ExactComponentQuantity(r, component.componentProductId)
         == ExactComponentQuantity(item, component.componentProductId) + component.quantity
  {
    var r := item.(bundleComponents := item.bundleComponents + [component]);
    assert r.bundleComponents[|item.bundleComponents|] == component;
    QuantitySumAppend(item.bundleComponents, [component], component.componentProductId);
    r
  }

  /**
   * `removeBundleComponent`: a copy without any component for product `p`;
   * the other components stay, in order, with their quantities.
   */
  function RemoveBundleComponent(item: OrderLineItem, p: ProductId): (r: OrderLineItem)
    ensures r.bundleComponents == WithoutComponent(item.bundleComponents, p)
    ensures r.productId == item.productId && r.productName == item.productName
    ensures r.quantity == item.quantity && r.unitPrice == item.unitPrice
    ensures !ContainsComponent(r, p) && ComponentQuantity(r, p) == 0
    ensures forall q :: q != p ==> ExactComponentQuantity(r, q) == ExactComponentQuantity(item, q)
  {
    var r := item.(bundleComponents := WithoutComponent(item.bundleComponents, p));
    QuantitySumWithout(item.bundleComponents, p, p);
    forall q | q != p
      ensures ExactComponentQuantity(r, q) == ExactComponentQuantity(item, q)
    {
      QuantitySumWithout(item.bundleComponents, p, q);
    }
    r
  }

  /** `equals`: identity is the product id alone, compared by its number. */
  predicate Equals(item: OrderLineItem, other: OrderLineItem): (b: bool)
    ensures b <==> item.productId.value == other.productId.value
  {
    item.productId == other.productId
  }

  /** Equality is an equivalence relation that ignores name, quantity, price and components. */
  lemma EqualsIgnoresDetails(a: OrderLineItem, b: OrderLineItem, c: OrderLineItem)
    ensures Equals(a, a)
    ensures Equals(a, b) ==> Equals(b, a)
    ensures Equals(a, b) && Equals(b, c) ==> Equals(a, c)
    ensures a.productId == b.productId ==> Equals(a, b)
  {
  }

  /** Every copy-on-write operation yields a line item equal to the original. */
  lemma CopiesKeepIdentity(item: OrderLineItem, n: Int32, c: BundleComponentItem, p: ProductId)
    ensures n > 0 ==> Equals(UpdateQuantity(item, n).value, item)
    ensures Equals(AddBundleComponent(item, c), item)
    ensures Equals(RemoveBundleComponent(item, p), item)
  {
  }
}
