/**
 * The Paystack checkout form: required-field validation, the shipping cost picked from
 * the fee table, and the paid order built from the local cart when the gateway
 * reports success. The order service is reduced to whether creation succeeded.
 */
module PaymentForm {
  import opened Wrappers
  import opened Sequences
  import opened Text
  import opened Prices
  import opened CartContext
  import opened OrderData

  /** The form's fields, each with the key it has in `formData`. */
  datatype Field = FullName | Email | Phone | Address | City | State | ZipCode

  function Key(field: Field): string
  {
    match field
    case FullName => "fullName"
    case Email => "email"
    case Phone => "phone"
    case Address => "address"
    case City => "city"
    case State => "state"
    case ZipCode => "zipCode"
  }

  function Keys(fields: seq<Field>): (keys: seq<string>)
    ensures |keys| == |fields|
    ensures forall k :: 0 <= k < |fields| ==> keys[k] == Key(fields[k])
  {
    if fields == [] then [] else [Key(fields[0])] + Keys(fields[1..])
  }

  const RequiredFields: seq<Field> := [FullName, Email, Phone, Address, State]

  const OrderFailed: string := "Failed to process order. Please contact support."
  const PaymentCancelled: string := "Payment cancelled. Please try again."
  const FeesUnavailable: string := "Failed to load shipping options. Please refresh the page."

  /** `formData[name]` */
  function FieldValue(f: CheckoutForm, field: Field): string
  {
    match field
    case FullName => f.fullName
    case Email => f.email
    case Phone => f.phone
    case Address => f.address
    case City => f.city
    case State => f.state
    case ZipCode => f.zipCode
  }

  /** `handleInputChange`: the named field takes the new value. */
  function WithField(f: CheckoutForm, field: Field, value: string): CheckoutForm
  {
    match field
    case FullName => f.(fullName := value)
    case Email => f.(email := value)
    case Phone => f.(phone := value)
    case Address => f.(address := value)
    case City => f.(city := value)
    case State => f.(state := value)
    case ZipCode => f.(zipCode := value)
  }

  function MissingFields(f: CheckoutForm): seq<Field>
  {
    Filter(RequiredFields, (n: Field) => FieldValue(f, n) == "")
  }

  /** `validateForm`: None when the form may be submitted, otherwise the error it sets. */
  function ValidateForm(f: CheckoutForm): Option<string>
  {
    var missing := MissingFields(f);
    if |missing| > 0 then Some("Please fill in all required fields: " + Join(Keys(missing), ", ")) else None
  }

  /** The form passes exactly when the five required fields are filled; the message lists the empty ones in form order. */
  lemma ValidateFormRule(f: CheckoutForm)
    ensures ValidateForm(f).None? <==>
              f.fullName != "" && f.email != "" && f.phone != "" && f.address != "" && f.state != ""
    ensures forall n :: n in MissingFields(f) <==> n in RequiredFields && FieldValue(f, n) == ""
    ensures Subsequence(MissingFields(f), RequiredFields)
    ensures ValidateForm(f).Some? ==>
              ValidateForm(f).value == "Please fill in all required fields: " + Join(Keys(MissingFields(f)), ", ")
  {
    var missing := MissingFields(f);
    if f.fullName == "" { assert FullName in missing; }
    if f.email == "" { assert Email in missing; }
    if f.phone == "" { assert Phone in missing; }
    if f.address == "" { assert Address in missing; }
    if f.state == "" { assert State in missing; }
  }

  lemma EmailAndStateMissing(f: CheckoutForm)
    requires f.fullName != "" && f.phone != "" && f.address != ""
    requires f.email == "" && f.state == ""
    ensures MissingFields(f) == [Email, State]
  {
    var keep := (n: Field) => FieldValue(f, n) == "";
    var s4: seq<Field> := [State];
    var s3: seq<Field> := [Address] + s4;
    var s2: seq<Field> := [Phone] + s3;
    var s1: seq<Field> := [Email] + s2;
    assert RequiredFields == [FullName] + s1;
    assert s4[1..] == [];
    assert Filter(s4, keep) == [State];
    assert Filter(s3, keep) == [State];
    assert Filter(s2, keep) == [State];
    assert Filter(s1, keep) == [Email, State];
  }

  lemma EmailAndStateKeys()
    ensures Join(Keys([Email, State]), ", ") == "email, state"
  {
    assert Keys([Email, State]) == ["email", "state"];
    assert Join(["email", "state"], ", ") == "email" + ", " + "state";
  }

  /** With only the email and the state left empty, the message names exactly those two. */
  lemma MissingEmailAndState(f: CheckoutForm)
    requires f.fullName != "" && f.phone != "" && f.address != ""
    requires f.email == "" && f.state == ""
    ensures ValidateForm(f) == Some("Please fill in all required fields: " + "email, state")
  {
    EmailAndStateMissing(f);
    EmailAndStateKeys();
  }

  /** The pay button is offered when not loading and the five required fields are filled. */
  predicate CanPay(loading: bool, f: CheckoutForm)
  {
    !loading && f.fullName != "" && f.email != "" && f.phone != "" && f.address != "" && f.state != ""
  }

  lemma CanPayIffValid(loading: bool, f: CheckoutForm)
    ensures CanPay(loading, f) <==> !loading && ValidateForm(f).None?
  {
    ValidateFormRule(f);
  }

  // ---------------------------------------------------------------------------
  // The paid order

  /** An order line from a cart line: subtotal price × quantity, a missing colour becomes "Default". */
  function PaidItem(item: CartItem): OrderItem
  {
    OrderItem(item.id, item.quantity, Finite(item.price), Finite(item.price * item.quantity),
              if item.color == "" then "Default" else item.color,
              item.colorVariantId, item.size, item.sizeVariantId)
  }

  function PaidItems(items: seq<CartItem>): (out: seq<OrderItem>)
    ensures |out| == |items|
    ensures forall k :: 0 <= k < |items| ==> out[k] == PaidItem(items[k])
  {
    if items == [] then [] else [PaidItem(items[0])] + PaidItems(items[1..])
  }

  /** `cart.totalPrice + shippingCost` */
  function OrderTotal(cart: CartState, shippingCost: int): int
  {
    cart.totalPrice + shippingCost
  }

  /** The order `handlePaymentSuccess` creates for the gateway reference it was given. */
  function PaidOrder(f: CheckoutForm, cart: CartState, shippingCost: int, reference: string): OrderPayload
  {
    var total := OrderTotal(cart, shippingCost);
    OrderPayload(
      f.fullName, f.email, f.phone, ShippingAddress(f),
      PaidItems(cart.items), "paystack", reference, "paid",
      Finite(cart.totalPrice), shippingCost, Finite(total),
      Some(PaymentData(reference, Finite(total), f.email)),
      None, false, None)
  }

  /** The amount handed to the gateway, in kobo. */
  function GatewayAmount(cart: CartState, shippingCost: int): int
  {
    OrderTotal(cart, shippingCost) * 100
  }

  /** `parseFloat(price.toString().replace(/,/g, ''))` of a whole-naira price is that price. */
  lemma PriceReadsBack(price: nat)
    ensures CartPrice(NatToString(price)) == Finite(price)
  {
    var s := NatToString(price);
    StripAbsent(s, ',');
    ParseRendered(price);
  }

  lemma {:induction false} PaidSubtotalsSum(items: seq<CartItem>)
    ensures SumSubtotals(PaidItems(items)) == Finite(Value(items))
  {
    if items != [] {
      PaidSubtotalsSum(items[1..]);
      assert PaidItems(items)[1..] == PaidItems(items[1..]);
    }
  }

  /**
   * The paid order is internally consistent: the total is subtotal plus shipping, the
   * payment data repeats the total, the gateway is charged 100 kobo per naira of it,
   * and, for a cart whose totals are the sums over its lines, the line subtotals add
   * up to the order subtotal.
   */
  lemma PaidOrderConsistent(f: CheckoutForm, cart: CartState, shippingCost: int, reference: string)
    ensures PaidOrder(f, cart, shippingCost, reference).totalAmount
              == Plus(PaidOrder(f, cart, shippingCost, reference).subtotal, Finite(shippingCost))
    ensures PaidOrder(f, cart, shippingCost, reference).paymentData
              == Some(PaymentData(reference, PaidOrder(f, cart, shippingCost, reference).totalAmount, f.email))
    ensures Times(PaidOrder(f, cart, shippingCost, reference).totalAmount, 100) == Finite(GatewayAmount(cart, shippingCost))
    ensures |PaidOrder(f, cart, shippingCost, reference).items| == |cart.items|
    ensures TotalsConsistent(cart) ==>
              SumSubtotals(PaidOrder(f, cart, shippingCost, reference).items) == PaidOrder(f, cart, shippingCost, reference).subtotal
  {
    PaidSubtotalsSum(cart.items);
  }

  // ---------------------------------------------------------------------------
  // The component's state

  class Checkout {
    var formData: CheckoutForm
    var loading: bool
    var error: Option<string>
    var shippingFees: seq<ShippingFee>
    var shippingCost: int

    constructor ()
      ensures formData == CheckoutForm("", "", "", "", "", "", "")
      ensures !loading && error == None && shippingFees == [] && shippingCost == 0
    {
      formData := CheckoutForm("", "", "", "", "", "", "");
      loading, error := false, None;
      shippingFees, shippingCost := [], 0;
    }

    method HandleInputChange(field: Field, value: string)
      modifies this
      ensures formData == WithField(old(formData), field, value)
      ensures FieldValue(formData, field) == value
      ensures forall other :: other != field ==> FieldValue(formData, other) == FieldValue(old(formData), other)
      ensures loading == old(loading) && error == old(error)
      ensures shippingFees == old(shippingFees) && shippingCost == old(shippingCost)
    {
      formData := WithField(formData, field, value);
    }

    /** The fee-table fetch on mount: the table on success, an error message on failure. */
    method LoadShippingFees(fetched: Option<seq<ShippingFee>>)
      modifies this
      ensures fetched.Some? ==> shippingFees == fetched.value && error == old(error)
      ensures fetched.None? ==> shippingFees == old(shippingFees) && error == Some(FeesUnavailable)
      ensures formData == old(formData) && loading == old(loading) && shippingCost == old(shippingCost)
    {
      match fetched {
        case Some(fees) => shippingFees := fees;
        case None => error := Some(FeesUnavailable);
      }
    }

    /** The effect run when the state field or the fee table changes. */
    method UpdateShippingCost()
      modifies this
      ensures shippingCost == ShippingLookup(shippingFees, formData.state, old(shippingCost))
      ensures formData == old(formData) && loading == old(loading) && error == old(error)
      ensures shippingFees == old(shippingFees)
    {
      if formData.state != "" {
        var found := FindFee(shippingFees, formData.state);
        if found.Some? {
          shippingCost := shippingFees[found.value].fee;
        }
      }
    }

    method Validate() returns (ok: bool)
      modifies this
      ensures ok <==> ValidateForm(formData).None?
      ensures error == if ok then old(error) else ValidateForm(formData)
      ensures formData == old(formData) && loading == old(loading)
      ensures shippingFees == old(shippingFees) && shippingCost == old(shippingCost)
    {
      var result := ValidateForm(formData);
      ok := result.None?;
      if !ok {
        error := result;
      }
    }

    /**
     * `handlePaymentSuccess`: the paid order is sent; only when its creation succeeds is
     * the cart cleared, otherwise the error is set and the cart stays as it was.
     */
    method HandlePaymentSuccess(reference: string, created: bool, cart: CartProvider) returns (sent: OrderPayload)
      modifies this, cart
      ensures sent == PaidOrder(formData, old(cart.state), shippingCost, reference)
      ensures created ==> cart.state == InitialState && cart.storage == old(cart.storage)[StorageKey := InitialState]
      ensures created ==> error == old(error)
      ensures !created ==> cart.state == old(cart.state) && cart.storage == old(cart.storage)
      ensures !created ==> error == Some(OrderFailed)
      ensures !loading
      ensures formData == old(formData) && shippingFees == old(shippingFees) && shippingCost == old(shippingCost)
    {
      loading := true;
      sent := PaidOrder(formData, cart.state, shippingCost, reference);
      if created {
        cart.ClearCart();
      } else {
        error := Some(OrderFailed);
      }
      loading := false;
    }

    /** The gateway window closed without paying. */
    method OnClose()
      modifies this
      ensures error == Some(PaymentCancelled)
      ensures formData == old(formData) && loading == old(loading)
      ensures shippingFees == old(shippingFees) && shippingCost == old(shippingCost)
    {
      error := Some(PaymentCancelled);
    }
  }
}
