/**
 * The payment page: it validates the form, creates a pending order under a fresh
 * "ORD-" reference, hands the payment to the gateway, and on the gateway's callback
 * records the order as paid or failed. The order and gateway services are reduced to
 * their outcomes, passed in as arguments; so are the clock and the random source.
 */
module Payment {
  import opened Wrappers
  import opened Text
  import opened Prices
  import opened CartContext
  import opened OrderData
  import OrebiSlice
  import PaymentForm

  const OrderPrefix: string := "ORD-"

  const MissingFields: string := "Please fill in all required fields"
  const SubmitFailed: string := "Failed to process your order. Please try again."
  const InvalidReference: string := "Invalid payment reference. Please try again."
  const PaymentFailed: string := "Payment failed. Please try again."
  const VerifyFailed: string := "Failed to verify payment. Please contact support."
  const FeesUnavailable: string := "Failed to load shipping options. Please refresh the page."
  const GatewayUnavailable: string := "Payment gateway is not available. Please try another payment method."

  /** An input of the page's form: one of the checkout fields, or the payment method held beside them. */
  datatype PageField = Form(field: PaymentForm.Field) | PaymentMethod

  /** `validateForm`: the name, email, phone and address must be filled; the state is not required here. */
  function ValidateForm(f: CheckoutForm): Option<string>
  {
    if f.fullName == "" || f.email == "" || f.phone == "" || f.address == "" then Some(MissingFields) else None
  }

  lemma ValidateFormRule(f: CheckoutForm, state: string)
    ensures ValidateForm(f).None? <==> f.fullName != "" && f.email != "" && f.phone != "" && f.address != ""
    ensures ValidateForm(f.(state := state)) == ValidateForm(f)
    ensures ValidateForm(f).Some? ==> ValidateForm(f) == Some(MissingFields)
  {
  }

  /** `subtotal + shippingCost` with `subtotal = cart.totalPrice` */
  function Total(cart: CartState, shippingCost: int): int
  {
    cart.totalPrice + shippingCost
  }

  /** An order line as `createOrderData` builds it: price × quantity, the colour as stored. */
  function PendingItem(item: CartItem): OrderItem
  {
    OrderItem(item.id, item.quantity, Finite(item.price), Finite(item.price * item.quantity),
              item.color, item.colorVariantId, item.size, item.sizeVariantId)
  }

  function PendingItems(items: seq<CartItem>): (out: seq<OrderItem>)
    ensures |out| == |items|
    ensures forall k :: 0 <= k < |items| ==> out[k] == PendingItem(items[k])
  {
    if items == [] then [] else [PendingItem(items[0])] + PendingItems(items[1..])
  }

  /** `createOrderData(reference, status)` */
  function CreateOrderData(f: CheckoutForm, paymentMethod: string, cart: CartState, shippingCost: int,
                           reference: string, status: string): OrderPayload
  {
    var total := Total(cart, shippingCost);
    OrderPayload(
      f.fullName, f.email, f.phone, ShippingAddress(f),
      PendingItems(cart.items), paymentMethod, reference, status,
      Finite(cart.totalPrice), shippingCost, Finite(total),
      if paymentMethod == "paystack" then Some(PaymentData(reference, Finite(total), f.email)) else None,
      None, false, None)
  }

  lemma {:induction false} PendingSubtotalsSum(items: seq<CartItem>)
    ensures SumSubtotals(PendingItems(items)) == Finite(Value(items))
  {
    if items != [] {
      PendingSubtotalsSum(items[1..]);
      assert PendingItems(items)[1..] == PendingItems(items[1..]);
    }
  }

  /**
   * The order data: payment data only for Paystack, carrying the reference and the
   * total; the total is subtotal plus shipping; and the line subtotals add up to the
   * subtotal whenever the cart's totals are the sums over its lines.
   */
  lemma CreateOrderDataRule(f: CheckoutForm, paymentMethod: string, cart: CartState, shippingCost: int,
                            reference: string, status: string)
    ensures var order := CreateOrderData(f, paymentMethod, cart, shippingCost, reference, status);
              order.paymentData.Some? <==> paymentMethod == "paystack"
    ensures paymentMethod == "paystack" ==>
              CreateOrderData(f, paymentMethod, cart, shippingCost, reference, status).paymentData.value
                == PaymentData(reference, CreateOrderData(f, paymentMethod, cart, shippingCost, reference, status).totalAmount, f.email)
    ensures CreateOrderData(f, paymentMethod, cart, shippingCost, reference, status).totalAmount
              == Plus(CreateOrderData(f, paymentMethod, cart, shippingCost, reference, status).subtotal, Finite(shippingCost))
    ensures CreateOrderData(f, paymentMethod, cart, shippingCost, reference, status).paymentReference == reference
    ensures CreateOrderData(f, paymentMethod, cart, shippingCost, reference, status).status == status
    ensures TotalsConsistent(cart) ==>
              SumSubtotals(CreateOrderData(f, paymentMethod, cart, shippingCost, reference, status).items)
                == CreateOrderData(f, paymentMethod, cart, shippingCost, reference, status).subtotal
  {
    PendingSubtotalsSum(cart.items);
  }

  /** The order-creation response fields `handleSubmit` reads. */
  datatype OrderResponse = OrderResponse(id: Option<int>, reference: Option<string>)

  /** `orderResponse.id || orderResponse.reference || reference` */
  function OrderKeyFor(response: OrderResponse, reference: string): OrderKey
  {
    if !Falsy(response.id) then ById(response.id.value)
    else if response.reference.Some? && response.reference.value != "" then ByReference(response.reference.value)
    else ByReference(reference)
  }

  lemma OrderKeyRule(response: OrderResponse, reference: string)
    ensures OrderKeyFor(response, reference).ById? <==> response.id.Some? && response.id.value != 0
    ensures OrderKeyFor(response, reference).ById? ==> OrderKeyFor(response, reference).id == response.id.value
    ensures OrderKeyFor(response, reference).ByReference? ==>
              OrderKeyFor(response, reference).reference in {reference, OrDefault(response.reference, reference)}
    ensures reference != "" ==> OrderKeyFor(response, reference) != ByReference("")
  {
  }

  /** The gateway request of `handleSubmit`. */
  function PaymentRequestFor(f: CheckoutForm, cart: CartState, shippingCost: int, reference: string, key: OrderKey): PaymentRequest
  {
    PaymentRequest(f.email, Finite(Total(cart, shippingCost)), reference, f.fullName, f.phone, key, None, false)
  }

  /** The callback and verification fields that decide the outcome. */
  datatype VerifyData = VerifyData(status: Option<string>, message: Option<string>)

  /** The status update sent for a callback. */
  datatype StatusUpdate = StatusUpdate(status: string, paymentReference: string, transactionId: Option<string>)

  predicate PaymentSucceeded(status: Option<string>, verifyStatus: Option<string>)
  {
    status == Some("success") || verifyStatus == Some("success")
  }

  /** The status written to the order. */
  function StatusSent(status: Option<string>, verifyStatus: Option<string>): string
  {
    if PaymentSucceeded(status, verifyStatus) then "paid" else "failed"
  }

  /** `message || verifyResponse?.data?.message || 'Payment failed. Please try again.'` */
  function FailureMessage(message: Option<string>, verifyMessage: Option<string>): string
  {
    OrDefault(message, OrDefault(verifyMessage, PaymentFailed))
  }

  /** The order is marked paid exactly when either report says "success"; a failure always has a message. */
  lemma PaidOrFailed(status: Option<string>, verifyStatus: Option<string>, message: Option<string>, verifyMessage: Option<string>)
    ensures StatusSent(status, verifyStatus) in {"paid", "failed"}
    ensures StatusSent(status, verifyStatus) == "paid" <==> status == Some("success") || verifyStatus == Some("success")
    ensures FailureMessage(message, verifyMessage) != ""
    ensures message.None? && verifyMessage.None? ==> FailureMessage(message, verifyMessage) == PaymentFailed
  {
  }

  predicate Truthy(s: Option<string>) { s.Some? && s.value != "" }

  class PaymentPage {
    var formData: CheckoutForm
    var paymentMethod: string
    var loading: bool
    var error: Option<string>
    var orderPlaced: bool
    var orderId: Option<int>
    var shippingFees: seq<ShippingFee>
    var shippingCost: int

    constructor ()
      ensures formData == CheckoutForm("", "", "", "", "", "", "") && paymentMethod == "paystack"
      ensures !loading && error == None && !orderPlaced && orderId == None
      ensures shippingFees == [] && shippingCost == 0
    {
      formData := CheckoutForm("", "", "", "", "", "", "");
      paymentMethod := "paystack";
      loading, error, orderPlaced, orderId := false, None, false, None;
      shippingFees, shippingCost := [], 0;
    }

    /** `handleInputChange`: the named input takes the value; nothing else changes. */
    method HandleInputChange(field: PageField, value: string)
      modifies this
      ensures field.Form? ==> formData == PaymentForm.WithField(old(formData), field.field, value) && paymentMethod == old(paymentMethod)
      ensures field.Form? ==> PaymentForm.FieldValue(formData, field.field) == value
      ensures field.Form? ==> forall other :: other != field.field ==>
                PaymentForm.FieldValue(formData, other) == PaymentForm.FieldValue(old(formData), other)
      ensures field.PaymentMethod? ==> paymentMethod == value && formData == old(formData)
      ensures loading == old(loading) && error == old(error) && orderPlaced == old(orderPlaced) && orderId == old(orderId)
      ensures shippingFees == old(shippingFees) && shippingCost == old(shippingCost)
    {
      match field {
        case Form(f) => formData := PaymentForm.WithField(formData, f, value);
        case PaymentMethod => paymentMethod := value;
      }
    }

    /** The fee-table fetch on mount: the table on success, an error message on failure. */
    method LoadShippingFees(fetched: Option<seq<ShippingFee>>)
      modifies this
      ensures fetched.Some? ==> shippingFees == fetched.value && error == old(error)
      ensures fetched.None? ==> shippingFees == old(shippingFees) && error == Some(FeesUnavailable)
      ensures formData == old(formData) && paymentMethod == old(paymentMethod) && shippingCost == old(shippingCost)
      ensures loading == old(loading) && orderPlaced == old(orderPlaced) && orderId == old(orderId)
    {
      match fetched {
        case Some(fees) => shippingFees := fees;
        case None => error := Some(FeesUnavailable);
      }
    }

    /** The gateway script load on mount: only a failure is visible, as an error message. */
    method LoadGatewayScript(loaded: bool)
      modifies this
      ensures error == if loaded then old(error) else Some(GatewayUnavailable)
      ensures formData == old(formData) && paymentMethod == old(paymentMethod) && shippingFees == old(shippingFees)
      ensures shippingCost == old(shippingCost) && loading == old(loading) && orderPlaced == old(orderPlaced) && orderId == old(orderId)
    {
      if !loaded {
        error := Some(GatewayUnavailable);
      }
    }

    /** The effect run when the state field or the fee table changes. */
    method UpdateShippingCost()
      modifies this
      ensures shippingCost == ShippingLookup(shippingFees, formData.state, old(shippingCost))
      ensures formData == old(formData) && paymentMethod == old(paymentMethod) && shippingFees == old(shippingFees)
      ensures loading == old(loading) && error == old(error) && orderPlaced == old(orderPlaced) && orderId == old(orderId)
    {
      if formData.state != "" {
        var found := FindFee(shippingFees, formData.state);
        if found.Some? {
          shippingCost := shippingFees[found.value].fee;
        }
      }
    }

    /**
     * `handleSubmit` at time `now` with `Math.random()` = `random`: an invalid form only
     * sets the error; otherwise a pending order is created under a new reference and,
     * if that succeeds, the payment is initialised for the order it created.
     */
    method HandleSubmit(cart: CartState, now: nat, random: real,
                        created: Result<OrderResponse, Option<string>>,
                        initialized: Result<(), Option<string>>)
      returns (order: Option<OrderPayload>, payment: Option<PaymentRequest>)
      requires 0.0 <= random < 1.0
      modifies this
      ensures ValidateForm(formData).Some? ==>
                order == None && payment == None && error == ValidateForm(formData) && loading == old(loading)
      ensures ValidateForm(formData).None? ==>
                var reference := Reference(OrderPrefix, now, RandomSuffix(random));
                && order == Some(CreateOrderData(formData, paymentMethod, cart, shippingCost, reference, "pending"))
                && payment == (if created.Ok? then Some(PaymentRequestFor(formData, cart, shippingCost, reference, OrderKeyFor(created.value, reference))) else None)
                && error == (if created.Err? then Some(OrDefault(created.error, SubmitFailed))
                             else if initialized.Err? then Some(OrDefault(initialized.error, SubmitFailed))
                             else None)
                && !loading
      ensures formData == old(formData) && paymentMethod == old(paymentMethod)
      ensures orderPlaced == old(orderPlaced) && orderId == old(orderId)
      ensures shippingFees == old(shippingFees) && shippingCost == old(shippingCost)
    {
      var invalid := ValidateForm(formData);
      if invalid.Some? {
        error := invalid;
        return None, None;
      }
      loading, error := true, None;
      var reference := Reference(OrderPrefix, now, RandomSuffix(random));
      order := Some(CreateOrderData(formData, paymentMethod, cart, shippingCost, reference, "pending"));
      match created {
        case Err(m) =>
          payment := None;
          error := Some(OrDefault(m, SubmitFailed));
        case Ok(response) =>
          var key := OrderKeyFor(response, reference);
          payment := Some(PaymentRequestFor(formData, cart, shippingCost, reference, key));
          if initialized.Err? {
            error := Some(OrDefault(initialized.error, SubmitFailed));
          }
      }
      loading := false;
    }

    /**
     * `handlePaystackCallback`: without a reference nothing is called; otherwise the
     * payment is verified, the order's status updated, and only a successful payment
     * places the order, clears the cart and records the order in the store.
     */
    method HandlePaystackCallback(reference: Option<string>, status: Option<string>, message: Option<string>,
                                  transaction: Option<string>,
                                  verify: Result<VerifyData, Option<string>>,
                                  updated: Result<OrebiSlice.Order, Option<string>>,
                                  cart: CartProvider, store: OrebiSlice.Store)
      returns (sent: Option<StatusUpdate>)
      requires store.Valid()
      modifies this, cart, store
      ensures store.Valid()
      ensures sent.Some? <==> Truthy(reference) && verify.Ok?
      ensures sent.Some? ==> sent == Some(StatusUpdate(StatusSent(status, verify.value.status), reference.value, transaction))
      ensures !Truthy(reference) ==> error == Some(InvalidReference)
      ensures Truthy(reference) && (verify.Err? || updated.Err?) ==> error == Some(VerifyFailed)
      ensures var placed := Truthy(reference) && verify.Ok? && updated.Ok? && PaymentSucceeded(status, verify.value.status);
              && (placed ==>
                    orderPlaced && orderId == Some(updated.value.id) && error == old(error)
                    && cart.state == InitialState && cart.storage == old(cart.storage)[StorageKey := InitialState]
                    && store.orders == old(store.orders) + [Some(updated.value)])
              && (!placed ==>
                    orderPlaced == old(orderPlaced) && orderId == old(orderId)
                    && cart.state == old(cart.state) && cart.storage == old(cart.storage)
                    && store.orders == old(store.orders))
      ensures Truthy(reference) && verify.Ok? && updated.Ok? && !PaymentSucceeded(status, verify.value.status) ==>
                error == Some(FailureMessage(message, verify.value.message))
      ensures store.products == old(store.products) && store.preorders == old(store.preorders)
      ensures formData == old(formData) && paymentMethod == old(paymentMethod) && loading == old(loading)
      ensures shippingFees == old(shippingFees) && shippingCost == old(shippingCost)
    {
      if !Truthy(reference) {
        error := Some(InvalidReference);
        return None;
      }
      if verify.Err? {
        error := Some(VerifyFailed);
        return None;
      }
      var verifyStatus := verify.value.status;
      sent := Some(StatusUpdate(StatusSent(status, verifyStatus), reference.value, transaction));
      if updated.Err? {
        error := Some(VerifyFailed);
        return;
      }
      if PaymentSucceeded(status, verifyStatus) {
        orderPlaced := true;
        orderId := Some(updated.value.id);
        cart.ClearCart();
        store.AddOrder(Some(updated.value));
      } else {
        error := Some(FailureMessage(message, verify.value.message));
      }
    }
  }
}
