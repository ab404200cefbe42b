/**
 * The data shared by the checkout pages and the preorder button: the customer form,
 * the shipping-fee table and its lookup, the shipping address string, the order
 * payload sent to the orders service, and the payment reference strings.
 */
module OrderData {
  import opened Wrappers
  import opened Text
  import opened Prices
  import opened Sequences

  /** The checkout form of the payment pages. */
  datatype CheckoutForm = CheckoutForm(
    fullName: string, email: string, phone: string,
    address: string, city: string, state: string, zipCode: string)

  /** One row of the shipping-fee table, its fee already read as a number. */
  datatype ShippingFee = ShippingFee(state: string, fee: int)

  datatype OrderItem = OrderItem(
    productId: int,
    quantity: int,
    price: Number,
    subtotal: Number,
    color: string,
    colorVariantId: Option<int>,
    size: Option<string>,
    sizeVariantId: Option<int>)

  datatype PaymentData = PaymentData(reference: string, amount: Number, email: string)

  /** The body of an order-creation request. */
  datatype OrderPayload = OrderPayload(
    customerName: string,
    customerEmail: string,
    customerPhone: string,
    shippingAddress: string,
    items: seq<OrderItem>,
    paymentMethod: string,
    paymentReference: string,
    status: string,
    subtotal: Number,
    shippingCost: int,
    totalAmount: Number,
    paymentData: Option<PaymentData>,
    notes: Option<string>,
    isPreorder: bool,
    preorderId: Option<int>)

  /** What a payment's metadata ties it to: the created order's id, or a reference string. */
  datatype OrderKey = ById(id: int) | ByReference(reference: string)

  /** The request handed to the payment gateway. */
  datatype PaymentRequest = PaymentRequest(
    email: string,
    amount: Number,
    reference: string,
    customerName: string,
    customerPhone: string,
    orderKey: OrderKey,
    preorderId: Option<int>,
    isPreorder: bool)

  // ---------------------------------------------------------------------------
  // Shipping

  /** The address, then ", city", ", state" and " zipCode", each only when filled in. */
  function ShippingAddress(f: CheckoutForm): string
  {
    f.address
    + (if f.city != "" then ", " + f.city else "")
    + (if f.state != "" then ", " + f.state else "")
    + (if f.zipCode != "" then " " + f.zipCode else "")
  }

  lemma ShippingAddressParts(f: CheckoutForm)
    ensures StartsWith(ShippingAddress(f), f.address)
    ensures f.city == "" && f.state == "" && f.zipCode == "" ==> ShippingAddress(f) == f.address
    ensures f.city != "" && f.state != "" && f.zipCode != "" ==>
              ShippingAddress(f) == f.address + ", " + f.city + ", " + f.state + " " + f.zipCode
    ensures |ShippingAddress(f)| ==
              |f.address| + (if f.city != "" then |f.city| + 2 else 0)
              + (if f.state != "" then |f.state| + 2 else 0) + (if f.zipCode != "" then |f.zipCode| + 1 else 0)
  {
    var s := ShippingAddress(f);
    assert s[..|f.address|] == f.address;
  }

  /** `shippingFees.find(fee => fee.state === state)`, as an index. */
  function FindFee(fees: seq<ShippingFee>, state: string): Option<nat>
  {
    FindFirst(fees, (f: ShippingFee) => f.state == state)
  }

  /** The shipping effect: a selected state found in the table sets the cost; otherwise the previous cost stays. */
  function ShippingLookup(fees: seq<ShippingFee>, state: string, previous: int): int
  {
    if state == "" then previous
    else match FindFee(fees, state)
      case None => previous
      case Some(i) => fees[i].fee
  }

  lemma ShippingLookupRule(fees: seq<ShippingFee>, state: string, previous: int)
    ensures state == "" ==> ShippingLookup(fees, state, previous) == previous
    ensures (forall j :: 0 <= j < |fees| ==> fees[j].state != state) ==> ShippingLookup(fees, state, previous) == previous
    ensures forall i ::
              (0 <= i < |fees| && state != "" && fees[i].state == state
               && forall j :: 0 <= j < i ==> fees[j].state != state) ==>
              ShippingLookup(fees, state, previous) == fees[i].fee
    ensures ShippingLookup(fees, state, ShippingLookup(fees, state, previous)) == ShippingLookup(fees, state, previous)
  {
    forall i | 0 <= i < |fees| && state != "" && fees[i].state == state && (forall j :: 0 <= j < i ==> fees[j].state != state)
      ensures ShippingLookup(fees, state, previous) == fees[i].fee
    {
      var k := FindFee(fees, state);
      assert k.Some?;
      assert k.value == i;
    }
  }

  // ---------------------------------------------------------------------------
  // Order totals

  /** The sum of the items' subtotals; NaN absorbs. */
  function SumSubtotals(items: seq<OrderItem>): Number
  {
    if items == [] then Finite(0) else Plus(items[0].subtotal, SumSubtotals(items[1..]))
  }

  // ---------------------------------------------------------------------------
  // Payment references

  /** `Math.floor(Math.random() * 1000000)` for a value `random` in [0, 1). */
  function RandomSuffix(random: real): (n: nat)
    requires 0.0 <= random < 1.0
    ensures n < 1000000
  {
    var x := random * 1000000.0;
    assert 0.0 <= x < 1000000.0;
    x.Floor
  }

  /** `prefix + Date.now() + '-' + suffix` */
  function Reference(prefix: string, timestamp: nat, suffix: nat): string
  {
    prefix + NatToString(timestamp) + "-" + NatToString(suffix)
  }

  lemma DashAfter(a: string, b: string)
    ensures (a + "-" + b)[|a|] == '-'
    ensures forall i :: 0 <= i < |a| ==> (a + "-" + b)[i] == a[i]
  {
  }

  lemma DigitsDashSplit(a: string, b: string, c: string, d: string)
    requires AllDigits(a) && AllDigits(c)
    requires a + "-" + b == c + "-" + d
    ensures a == c && b == d
  {
    var s := a + "-" + b;
    if |a| != |c| {
      DashAfter(a, b);
      DashAfter(c, d);
      assert false;
    }
    assert a == s[..|a|] == c;
    assert b == s[|a| + 1..] == d;
  }

  /** A reference determines its timestamp and suffix: distinct pairs give distinct references. */
  lemma ReferenceInjective(prefix: string, t1: nat, n1: nat, t2: nat, n2: nat)
    requires Reference(prefix, t1, n1) == Reference(prefix, t2, n2)
    ensures t1 == t2 && n1 == n2
  {
    var a, b, c, d := NatToString(t1), NatToString(n1), NatToString(t2), NatToString(n2);
    var r1, r2 := Reference(prefix, t1, n1), Reference(prefix, t2, n2);
    assert r1 == prefix + (a + "-" + b);
    assert r2 == prefix + (c + "-" + d);
    assert a + "-" + b == r1[|prefix|..] == r2[|prefix|..] == c + "-" + d;
    DigitsDashSplit(a, b, c, d);
    NatToStringInjective(t1, t2);
    NatToStringInjective(n1, n2);
  }

  /** A reference starts with its prefix and is never empty. */
  lemma ReferencePrefix(prefix: string, timestamp: nat, suffix: nat)
    ensures StartsWith(Reference(prefix, timestamp, suffix), prefix)
    ensures |Reference(prefix, timestamp, suffix)| >= |prefix| + 3
  {
    var r := Reference(prefix, timestamp, suffix);
    assert r == prefix + (NatToString(timestamp) + "-" + NatToString(suffix));
    assert r[..|prefix|] == prefix;
  }
}
