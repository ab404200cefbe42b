/**
 * The preorder button on a product page: it opens a customer form, validates it
 * (including the email pattern `^[^\s@]+@[^\s@]+\.[^\s@]+$`), creates the preorder,
 * then an order for its payment, links the two, and starts the payment. The services
 * are reduced to their outcomes, passed in as arguments with the clock and the random source.
 */
module PreorderPaymentButton {
  import opened Wrappers
  import opened Text
  import opened Prices
  import opened CartContext
  import opened OrderData

  const PreorderPrefix: string := "PREORDER-"

  const SelectColor: string := "Please select a color variant"
  const MissingFields: string := "Please fill in all required fields"
  const InvalidEmail: string := "Please enter a valid email address"
  const SubmitFailed: string := "Failed to process preorder payment. Please try again."

  datatype PreorderForm = PreorderForm(
    customerName: string, customerEmail: string, customerPhone: string, customerAddress: string, notes: string)

  datatype FormField = CustomerName | CustomerEmail | CustomerPhone | CustomerAddress | Notes

  /** `handleInputChange`: the named field takes the new value. */
  function WithField(f: PreorderForm, field: FormField, value: string): PreorderForm
  {
    match field
    case CustomerName => f.(customerName := value)
    case CustomerEmail => f.(customerEmail := value)
    case CustomerPhone => f.(customerPhone := value)
    case CustomerAddress => f.(customerAddress := value)
    case Notes => f.(notes := value)
  }

  /** A JavaScript value as `is_preorder` may hold it. */
  datatype JsValue = Bool(b: bool) | Num(n: int) | Str(s: string) | Missing

  datatype ColorChoice = ColorChoice(id: Option<int>, colorName: Option<string>)
  datatype SizeChoice = SizeChoice(id: Option<int>, size: Option<string>)

  datatype PreorderProduct = PreorderProduct(
    id: int, name: string, price: PriceInput, colorVariants: Option<seq<ColorChoice>>, isPreorder: JsValue)

  /** The button is rendered only for `is_preorder` equal to true, 1 or "1". */
  predicate IsPreorderProduct(p: PreorderProduct)
  {
    p.isPreorder == Bool(true) || p.isPreorder == Num(1) || p.isPreorder == Str("1")
  }

  lemma PreorderFlagIsStrict(p: PreorderProduct)
    requires p.isPreorder in {Bool(false), Num(0), Str("0"), Str("true"), Missing}
    ensures !IsPreorderProduct(p)
  {
  }

  /** `handlePreorderClick`: refused when the product has colour variants and none is selected. */
  predicate CanOpenForm(p: PreorderProduct, selected: Option<ColorChoice>)
  {
    !(p.colorVariants.Some? && |p.colorVariants.value| > 0 && selected.None?)
  }

  // ---------------------------------------------------------------------------
  // The email pattern

  /** A character of the class `[^\s@]`. */
  predicate Plain(c: char) { !IsWhitespace(c) && c != '@' }

  predicate AllPlain(s: string) { forall j :: 0 <= j < |s| ==> Plain(s[j]) }

  /** `[^\s@]+\.[^\s@]+`, matched against the whole string. */
  predicate DomainPattern(d: string)
  {
    AllPlain(d) && exists k :: 0 < k < |d| - 1 && d[k] == '.'
  }

  /** `^[^\s@]+@[^\s@]+\.[^\s@]+$`: a non-empty local part, one "@", and a domain with an inner dot. */
  predicate EmailPattern(s: string)
  {
    exists i :: 0 < i < |s| && s[i] == '@' && AllPlain(s[..i]) && DomainPattern(s[i + 1..])
  }

  /** The first index of `c` in `s`. */
  function IndexOf(s: string, c: char): (r: Option<nat>)
    ensures r.Some? ==> r.value < |s| && s[r.value] == c
    ensures r.Some? ==> forall j :: 0 <= j < r.value ==> s[j] != c
    ensures r.None? <==> c !in s
  {
    if s == [] then None
    else if s[0] == c then Some(0)
    else match IndexOf(s[1..], c)
      case None => None
      case Some(i) => Some(i + 1)
  }

  /** The test `validateForm` performs: split at the first "@", then check each side. */
  predicate IsValidEmail(s: string)
  {
    match IndexOf(s, '@')
    case None => false
    case Some(i) =>
      var d := s[i + 1..];
      i > 0 && AllPlain(s[..i]) && AllPlain(d) && |d| >= 3 && '.' in d[1..|d| - 1]
  }

  lemma EmailCheckMatchesPattern(s: string)
    ensures IsValidEmail(s) <==> EmailPattern(s)
  {
    if IsValidEmail(s) {
      var i := IndexOf(s, '@').value;
      var d := s[i + 1..];
      var m := d[1..|d| - 1];
      var k' :| 0 <= k' < |m| && m[k'] == '.';
      assert d[k' + 1] == '.';
      assert DomainPattern(d);
    }
    if EmailPattern(s) {
      var i :| 0 < i < |s| && s[i] == '@' && AllPlain(s[..i]) && DomainPattern(s[i + 1..]);
      forall j | 0 <= j < i ensures s[j] != '@' {
        assert s[..i][j] == s[j];
      }
      assert s[i] in s;
      var r := IndexOf(s, '@');
      assert r == Some(i);
      var d := s[i + 1..];
      var k :| 0 < k < |d| - 1 && d[k] == '.';
      assert d[1..|d| - 1][k - 1] == '.';
    }
  }

  lemma EmailExamples()
    ensures EmailPattern("a@b.co")
    ensures !EmailPattern("a@b")
    ensures !EmailPattern("@b.co")
  {
    var good := "a@b.co";
    assert good[1] == '@' && good[..1] == "a" && good[2..] == "b.co";
    assert "b.co"[1] == '.';
    assert AllPlain("b.co");
    assert DomainPattern(good[2..]);
    assert !DomainPattern("b");
  }

  /** `validateForm`: None when the form may be submitted, otherwise the message shown. */
  function ValidateForm(f: PreorderForm): Option<string>
  {
    if f.customerName == "" || f.customerEmail == "" || f.customerPhone == "" || f.customerAddress == "" then
      Some(MissingFields)
    else if !IsValidEmail(f.customerEmail) then Some(InvalidEmail)
    else None
  }

  lemma ValidateFormRule(f: PreorderForm)
    ensures ValidateForm(f).None? <==>
              f.customerName != "" && f.customerEmail != "" && f.customerPhone != "" && f.customerAddress != ""
              && EmailPattern(f.customerEmail)
    ensures ValidateForm(f) == Some(InvalidEmail) ==> !EmailPattern(f.customerEmail)
  {
    EmailCheckMatchesPattern(f.customerEmail);
  }

  // ---------------------------------------------------------------------------
  // Requests

  /** `selectedColor?.id || null` and its size counterpart. */
  function ColorVariantId(c: Option<ColorChoice>): Option<int> { if c.None? then None else OrNull(c.value.id) }
  function SizeVariantId(s: Option<SizeChoice>): Option<int> { if s.None? then None else OrNull(s.value.id) }

  /** `selectedColor?.color_name || "Default"` */
  function ColorName(c: Option<ColorChoice>): string
  {
    if c.None? then "Default" else OrDefault(c.value.colorName, "Default")
  }

  /** `selectedSize?.size || null` */
  function SizeName(s: Option<SizeChoice>): Option<string>
  {
    if s.None? then None else SizeOrNull(s.value.size)
  }

  /** `numericPrice * quantity`, the price read with every naira sign and comma removed. */
  function PreorderTotal(p: PreorderProduct, quantity: int): Number
  {
    Times(PreorderPrice(p.price), quantity)
  }

  datatype PreorderRequest = PreorderRequest(
    productId: int, colorVariantId: Option<int>, sizeVariantId: Option<int>, quantity: int,
    customerName: string, customerEmail: string, customerPhone: string, customerAddress: string, notes: string)

  function PreorderRequestFor(p: PreorderProduct, c: Option<ColorChoice>, s: Option<SizeChoice>, quantity: int, f: PreorderForm): PreorderRequest
  {
    PreorderRequest(p.id, ColorVariantId(c), SizeVariantId(s), quantity,
                    f.customerName, f.customerEmail, f.customerPhone, f.customerAddress, f.notes)
  }

  function PreorderNotes(p: PreorderProduct, preorderId: nat): string
  {
    "Preorder payment for: " + p.name + ". Preorder ID: " + NatToString(preorderId)
  }

  /** The order created to pay for preorder `preorderId`. */
  function PreorderOrder(p: PreorderProduct, c: Option<ColorChoice>, s: Option<SizeChoice>, quantity: int,
                         f: PreorderForm, reference: string, preorderId: nat): OrderPayload
  {
    var total := PreorderTotal(p, quantity);
    OrderPayload(
      f.customerName, f.customerEmail, f.customerPhone, f.customerAddress,
      [OrderItem(p.id, quantity, PreorderPrice(p.price), total, ColorName(c), ColorVariantId(c), SizeName(s), SizeVariantId(s))],
      "paystack", reference, "pending",
      total, 0, total, None,
      Some(PreorderNotes(p, preorderId)), true, Some(preorderId))
  }

  /**
   * The preorder's order has one line whose subtotal is the order's subtotal and total,
   * no shipping, the default colour and null ids when nothing is selected, and is
   * flagged as a preorder of `preorderId`.
   */
  lemma PreorderOrderRule(p: PreorderProduct, c: Option<ColorChoice>, s: Option<SizeChoice>, quantity: int,
                          f: PreorderForm, reference: string, preorderId: nat)
    ensures var o := PreorderOrder(p, c, s, quantity, f, reference, preorderId);
            && |o.items| == 1
            && o.items[0].subtotal == o.subtotal == o.totalAmount == Times(o.items[0].price, quantity)
            && o.shippingCost == 0 && Plus(o.subtotal, Finite(o.shippingCost)) == o.totalAmount
            && SumSubtotals(o.items) == o.subtotal
            && o.isPreorder && o.preorderId == Some(preorderId)
            && o.paymentReference == reference && o.status == "pending"
    ensures var o := PreorderOrder(p, c, s, quantity, f, reference, preorderId);
            c.None? ==> o.items[0].color == "Default" && o.items[0].colorVariantId == None
    ensures var o := PreorderOrder(p, c, s, quantity, f, reference, preorderId);
            s.None? ==> o.items[0].size == None && o.items[0].sizeVariantId == None
    ensures var o := PreorderOrder(p, c, s, quantity, f, reference, preorderId);
            p.price.Numeric? ==> o.totalAmount == Finite(p.price.amount * quantity)
  {
    var o := PreorderOrder(p, c, s, quantity, f, reference, preorderId);
    assert o.items[1..] == [];
  }

  function PreorderPayment(p: PreorderProduct, quantity: int, f: PreorderForm, reference: string,
                           orderId: int, preorderId: nat): PaymentRequest
  {
    PaymentRequest(f.customerEmail, PreorderTotal(p, quantity), reference, f.customerName, f.customerPhone,
                   ById(orderId), Some(preorderId), true)
  }

  class Button {
    var isProcessing: bool
    var showPaymentForm: bool
    var formData: PreorderForm

    constructor ()
      ensures !isProcessing && !showPaymentForm && formData == PreorderForm("", "", "", "", "")
    {
      isProcessing, showPaymentForm := false, false;
      formData := PreorderForm("", "", "", "", "");
    }

    method HandleInputChange(field: FormField, value: string)
      modifies this
      ensures formData == WithField(old(formData), field, value)
      ensures isProcessing == old(isProcessing) && showPaymentForm == old(showPaymentForm)
    {
      formData := WithField(formData, field, value);
    }

    method HandlePreorderClick(p: PreorderProduct, selected: Option<ColorChoice>) returns (toast: Option<string>)
      modifies this
      ensures CanOpenForm(p, selected) ==> showPaymentForm && toast == None
      ensures !CanOpenForm(p, selected) ==> showPaymentForm == old(showPaymentForm) && toast == Some(SelectColor)
      ensures isProcessing == old(isProcessing) && formData == old(formData)
    {
      if p.colorVariants.Some? && |p.colorVariants.value| > 0 && selected.None? {
        return Some(SelectColor);
      }
      showPaymentForm := true;
      return None;
    }

    /**
     * `handlePaymentSubmit`. A failure to link the preorder to its order is ignored:
     * the payment request does not depend on `linked`. Any other failure stops the
     * sequence and shows its message or the fallback.
     */
    method HandlePaymentSubmit(p: PreorderProduct, c: Option<ColorChoice>, s: Option<SizeChoice>, quantity: int,
                               now: nat, random: real,
                               preorderCreated: Result<nat, Option<string>>,
                               orderCreated: Result<int, Option<string>>,
                               linked: bool,
                               initialized: Result<(), Option<string>>)
      returns (toast: Option<string>, preorder: Option<PreorderRequest>, order: Option<OrderPayload>,
               link: Option<(nat, int)>, payment: Option<PaymentRequest>)
      requires 0.0 <= random < 1.0
      modifies this
      ensures ValidateForm(formData).Some? ==>
                toast == ValidateForm(formData) && preorder == None && order == None && link == None && payment == None
                && isProcessing == old(isProcessing)
      ensures ValidateForm(formData).None? ==>
                var reference := Reference(PreorderPrefix, now, RandomSuffix(random));
                && !isProcessing
                && preorder == Some(PreorderRequestFor(p, c, s, quantity, formData))
                && order == (if preorderCreated.Ok?
                             then Some(PreorderOrder(p, c, s, quantity, formData, reference, preorderCreated.value))
                             else None)
                && link == (if preorderCreated.Ok? && orderCreated.Ok?
                            then Some((preorderCreated.value, orderCreated.value)) else None)
                && payment == (if preorderCreated.Ok? && orderCreated.Ok?
                               then Some(PreorderPayment(p, quantity, formData, reference, orderCreated.value, preorderCreated.value))
                               else None)
                && toast == (if preorderCreated.Err? then Some(OrDefault(preorderCreated.error, SubmitFailed))
                             else if orderCreated.Err? then Some(OrDefault(orderCreated.error, SubmitFailed))
                             else if initialized.Err? then Some(OrDefault(initialized.error, SubmitFailed))
                             else None)
      ensures showPaymentForm == old(showPaymentForm) && formData == old(formData)
    {
      toast, preorder, order, link, payment := None, None, None, None, None;
      var invalid := ValidateForm(formData);
      if invalid.Some? {
        toast := invalid;
        return;
      }
      isProcessing := true;
      preorder := Some(PreorderRequestFor(p, c, s, quantity, formData));
      if preorderCreated.Err? {
        toast := Some(OrDefault(preorderCreated.error, SubmitFailed));
      } else {
        var preorderId := preorderCreated.value;
        var reference := Reference(PreorderPrefix, now, RandomSuffix(random));
        order := Some(PreorderOrder(p, c, s, quantity, formData, reference, preorderId));
        if orderCreated.Err? {
          toast := Some(OrDefault(orderCreated.error, SubmitFailed));
        } else {
          link := Some((preorderId, orderCreated.value));
          payment := Some(PreorderPayment(p, quantity, formData, reference, orderCreated.value, preorderId));
          if initialized.Err? {
            toast := Some(OrDefault(initialized.error, SubmitFailed));
          }
        }
      }
      isProcessing := false;
    }
  }
}
