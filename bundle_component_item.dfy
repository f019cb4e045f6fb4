/**
 * `BundleComponentItem`: one component of a bundled product. It is an
 * immutable value; `updateQuantity` builds a new one. Two components are
 * "equal" in the source's sense when they name the same product, whatever
 * their names and quantities.
 */
module Bundles {
  import opened Base
  import opened Text
  import opened Identifiers

  datatype BundleComponentItem = BundleComponentItem(componentProductId: ProductId, componentName: string, quantity: Int32)

  /** `BundleComponentItem.create`: the name must not be blank and the quantity must be positive. */
  function Create(componentProductId: ProductId, componentName: string, quantity: Int32): (r: Result<BundleComponentItem>)
    ensures r.Ok? <==> !IsBlank(componentName) && quantity > 0
    ensures r.Ok? ==> r.value.componentProductId == componentProductId
    ensures r.Ok? ==> r.value.componentName == componentName && r.value.quantity == quantity
    ensures IsBlank(componentName) ==> r == Err(IllegalArgument("Component name cannot be blank"))
    ensures !IsBlank(componentName) && quantity <= 0 ==> r == Err(IllegalArgument("Quantity must be positive"))
  {
    if IsBlank(componentName) then Err(IllegalArgument("Component name cannot be blank"))
    else if quantity <= 0 then Err(IllegalArgument("Quantity must be positive"))
    else Ok(BundleComponentItem(componentProductId, componentName, quantity))
  }

  /** `BundleComponentItem.reconstitute`: the stored values, taken without any check. */
  function Reconstitute(componentProductId: ProductId, componentName: string, quantity: Int32): (c: BundleComponentItem)
    ensures c.componentProductId == componentProductId
    ensures c.componentName == componentName && c.quantity == quantity
  {
    BundleComponentItem(componentProductId, componentName, quantity)
  }

  /** `updateQuantity`: a copy with the new quantity, which must be positive. */
  function UpdateQuantity(c: BundleComponentItem, newQuantity: Int32): (r: Result<BundleComponentItem>)
    ensures r.Ok? <==> newQuantity > 0
    ensures r.Ok? ==> r.value.componentProductId == c.componentProductId
    ensures r.Ok? ==> r.value.componentName == c.componentName && r.value.quantity == newQuantity
    ensures r.Err? ==> r.error == IllegalArgument("Quantity must be positive")
  {
    if newQuantity <= 0 then Err(IllegalArgument("Quantity must be positive"))
    else Ok(c.(quantity := newQuantity))
  }

  /** `isSameProduct`: the two components' product ids hold the same number. */
  predicate IsSameProduct(c: BundleComponentItem, other: BundleComponentItem): (b: bool)
    ensures b <==> c.componentProductId.value == other.componentProductId.value
  {
    c.componentProductId == other.componentProductId
  }

  /** `isProduct`: the component's product id holds the given number. */
  predicate IsProduct(c: BundleComponentItem, productId: ProductId): (b: bool)
    ensures b <==> c.componentProductId.value == productId.value
  {
    c.componentProductId == productId
  }

  /** `equals`: identity is the component's product id alone. */
  predicate Equals(c: BundleComponentItem, other: BundleComponentItem): (b: bool)
    ensures b <==> IsSameProduct(c, other)
  {
    c.componentProductId == other.componentProductId
  }

  /** Equality and `isSameProduct` agree, and both look only at the product id. */
  lemma EqualsIsSameProduct(a: BundleComponentItem, b: BundleComponentItem, name: string, quantity: Int32)
    ensures Equals(a, b) <==> IsSameProduct(a, b)
    ensures Equals(a, b) <==> IsProduct(a, b.componentProductId)
    ensures Equals(a, b) <==> Equals(a.(componentName := name, quantity := quantity), b)
  {
  }

  /** Equality is an equivalence relation. */
  lemma EqualsIsEquivalence(a: BundleComponentItem, b: BundleComponentItem, c: BundleComponentItem)
    ensures Equals(a, a)
    ensures Equals(a, b) ==> Equals(b, a)
    ensures Equals(a, b) && Equals(b, c) ==> Equals(a, c)
  {
  }

  /** A component with an updated quantity is still the same component. */
  lemma UpdateQuantityKeepsIdentity(c: BundleComponentItem, newQuantity: Int32)
    requires newQuantity > 0
    ensures Equals(UpdateQuantity(c, newQuantity).value, c)
    ensures UpdateQuantity(c, newQuantity).value != c <==> newQuantity != c.quantity
  {
  }

  const TO_STRING_PREFIX: string := "BundleComponentItem(componentProductId="

  /** What `toString` prints after the product id: it starts with a comma. */
  function Details(c: BundleComponentItem): (s: string)
    ensures |s| > 0 && s[0] == ','
  {
    ", componentName='" + c.componentName + "', quantity=" + IntToString(c.quantity) + ")"
  }

  /**
   * `toString`:
   * BundleComponentItem(componentProductId=<id>, componentName='<name>', quantity=<q>).
   */
  function ToString(c: BundleComponentItem): (s: string)
    ensures |s| > |TO_STRING_PREFIX| && s[..|TO_STRING_PREFIX|] == TO_STRING_PREFIX
    ensures |s| > |TO_STRING_PREFIX| + |ProductIdToString(c.componentProductId)|
    ensures s[|TO_STRING_PREFIX|..][..|ProductIdToString(c.componentProductId)|] == ProductIdToString(c.componentProductId)
    ensures s[|TO_STRING_PREFIX| + |ProductIdToString(c.componentProductId)|..]
            == ", componentName='" + c.componentName + "', quantity=" + IntToString(c.quantity) + ")"
    ensures s[|s| - 1] == ')'
  {
    assert TO_STRING_PREFIX + (ProductIdToString(c.componentProductId) + Details(c))
        == (TO_STRING_PREFIX + ProductIdToString(c.componentProductId)) + Details(c);
    TO_STRING_PREFIX + (ProductIdToString(c.componentProductId) + Details(c))
  }

  /** The rendering names the product: components that print alike are equal. */
  lemma ToStringIdentifiesProduct(a: BundleComponentItem, b: BundleComponentItem)
    requires ToString(a) == ToString(b)
    ensures Equals(a, b)
  {
    var da, db := ProductIdToString(a.componentProductId), ProductIdToString(b.componentProductId);
    assert da + Details(a) == ToString(a)[|TO_STRING_PREFIX|..];
    assert db + Details(b) == ToString(b)[|TO_STRING_PREFIX|..];
    DigitRunUnique(da, Details(a), db, Details(b));
    ProductIdToStringInjective(a.componentProductId, b.componentProductId);
  }
}
