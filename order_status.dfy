/**
 * `OrderStatus`: the five states of an order, their names, and the
 * case-insensitive parse of a name back into a status.
 */
module Statuses {
  import opened Base
  import opened Text

  datatype OrderStatus = PENDING | PAID | SHIPPED | DELIVERED | CANCELLED

  /** The `name` each status object carries: a word of capital letters. */
  function Name(s: OrderStatus): (n: string)
    ensures 4 <= |n| <= 9
    ensures forall i | 0 <= i < |n| :: 'A' <= n[i] <= 'Z'
  {
    match s
    case PENDING => "PENDING"
    case PAID => "PAID"
    case SHIPPED => "SHIPPED"
    case DELIVERED => "DELIVERED"
    case CANCELLED => "CANCELLED"
  }

  /**
   * `OrderStatus.fromString`: upper-case the text and match it against the
   * five names; anything else is refused, quoting the text as given.
   */
  function FromString(name: string): (r: Result<OrderStatus>)
    ensures r.Ok? <==> exists s: OrderStatus :: Uppercase(name) == Name(s)
    ensures r.Ok? ==> Uppercase(name) == Name(r.value)
    ensures r.Err? ==> r.error == IllegalArgument("Unknown order status: " + name)
  {
    var upper := Uppercase(name);
    if upper == "PENDING" then assert upper == Name(PENDING); Ok(PENDING)
    else if upper == "PAID" then assert upper == Name(PAID); Ok(PAID)
    else if upper == "SHIPPED" then assert upper == Name(SHIPPED); Ok(SHIPPED)
    else if upper == "DELIVERED" then assert upper == Name(DELIVERED); Ok(DELIVERED)
    else if upper == "CANCELLED" then assert upper == Name(CANCELLED); Ok(CANCELLED)
    else Err(IllegalArgument("Unknown order status: " + name))
  }

  /** The names are already in upper case. */
  lemma {:induction false} NameIsUppercase(s: OrderStatus)
    ensures Uppercase(Name(s)) == Name(s)
  {
    var n := Name(s);
    assert forall i | 0 <= i < |n| :: 'A' <= n[i] <= 'Z';
  }

  /** `toString` is the name, and it parses back to the same status. */
  function ToString(s: OrderStatus): (r: string)
    ensures r == Name(s)
    ensures FromString(r) == Ok(s)
  {
    NameIsUppercase(s);
    Name(s)
  }

  /** Round trip: every status is recovered from its name. */
  lemma FromStringName(s: OrderStatus)
    ensures FromString(Name(s)) == Ok(s)
  {
    NameIsUppercase(s);
  }

  /** The five names are pairwise distinct. */
  lemma NameInjective(a: OrderStatus, b: OrderStatus)
    ensures Name(a) == Name(b) <==> a == b
  {
  }

  /** Parsing ignores case: texts with the same upper-case form parse alike. */
  lemma FromStringIgnoresCase(x: string, y: string)
    requires Uppercase(x) == Uppercase(y)
    ensures FromString(x).Ok? <==> FromString(y).Ok?
    ensures FromString(x).Ok? ==> FromString(x) == FromString(y)
  {
  }

  /**
   * Lower-case names are accepted: "pending", "paid", "shipped",
   * "delivered" and "cancelled" parse to their statuses.
   */
  lemma LowercaseNames(s: OrderStatus)
    ensures FromString(Lowercase(Name(s))) == Ok(s)
  {
    UppercaseLowercase(Name(s));
  }
}
