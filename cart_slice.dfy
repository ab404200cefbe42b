/**
 * The server-backed `cart` Redux slice: the item list returned by the cart service,
 * a loading flag, an error message, and the totals `calculateTotals` derives from
 * the items. The five async thunks are modelled by their pending / fulfilled /
 * rejected reducer cases; the service calls themselves are not part of this model.
 */
module CartSlice {
  import opened Wrappers
  import opened Sequences
  import opened Text
  import opened Prices

  /** A server cart line: its price may be a number or a formatted string. */
  datatype ServerItem = ServerItem(id: int, price: PriceInput, quantity: int)

  /** The five thunks, each with the message used when the server sends none. */
  datatype Thunk = FetchCart | AddItemToCart | UpdateCartItemQuantity | RemoveCartItem | ClearCart

  function Fallback(t: Thunk): string
  {
    match t
    case FetchCart => "Failed to fetch cart"
    case AddItemToCart => "Failed to add item to cart"
    case UpdateCartItemQuantity => "Failed to update cart item"
    case RemoveCartItem => "Failed to remove cart item"
    case ClearCart => "Failed to clear cart"
  }

  /** The price `calculateTotals` reads: strings lose their commas and go through `parseFloat`. */
  function ItemPrice(item: ServerItem): Number
  {
    match item.price
    case Numeric(n) => Finite(n)
    case Text(s) => CartPrice(s)
  }

  /** The `reduce` of `calculateTotals`, folded from the left as the source does. */
  function Total(items: seq<ServerItem>): Number
  {
    if items == [] then Finite(0)
    else Plus(Total(items[..|items| - 1]), Times(ItemPrice(items[|items| - 1]), items[|items| - 1].quantity))
  }

  /** The shipping tiers: 30 up to 200, 25 up to 400, 20 above (and for NaN, which fails both tests). */
  function ShippingCharge(total: Number): int
  {
    if total.Finite? && total.value <= 200 then 30
    else if total.Finite? && total.value <= 400 then 25
    else 20
  }

  /** The total is a number exactly when every line's price reads as one. */
  lemma {:induction false} TotalFiniteIffPricesRead(items: seq<ServerItem>)
    ensures Total(items).Finite? <==> forall j :: 0 <= j < |items| ==> ItemPrice(items[j]).Finite?
  {
    if items != [] {
      var init := items[..|items| - 1];
      TotalFiniteIffPricesRead(init);
      assert forall j :: 0 <= j < |init| ==> init[j] == items[j];
    }
  }

  /** The sum of a line's price times its quantity, when every price reads. */
  function Sum(items: seq<ServerItem>): int
    requires forall j :: 0 <= j < |items| ==> ItemPrice(items[j]).Finite?
  {
    if items == [] then 0
    else ItemPrice(items[0]).value * items[0].quantity + Sum(items[1..])
  }

  lemma {:induction false} SumAppend(items: seq<ServerItem>, x: ServerItem)
    requires forall j :: 0 <= j < |items| ==> ItemPrice(items[j]).Finite?
    requires ItemPrice(x).Finite?
    ensures Sum(items + [x]) == Sum(items) + ItemPrice(x).value * x.quantity
  {
    if items != [] {
      assert (items + [x])[1..] == items[1..] + [x];
      SumAppend(items[1..], x);
    }
  }

  /** With every price readable, the left fold is the plain sum over the lines. */
  lemma {:induction false} TotalIsSum(items: seq<ServerItem>)
    requires forall j :: 0 <= j < |items| ==> ItemPrice(items[j]).Finite?
    ensures Total(items) == Finite(Sum(items))
  {
    if items != [] {
      var init := items[..|items| - 1];
      var last := items[|items| - 1];
      TotalIsSum(init);
      assert items == init + [last];
      SumAppend(init, last);
    }
  }

  /** The charge is one of the three tiers and never grows as the total grows. */
  lemma ShippingTiers(a: int, b: int)
    requires a <= b
    ensures ShippingCharge(Finite(a)) in {20, 25, 30}
    ensures ShippingCharge(Finite(b)) <= ShippingCharge(Finite(a))
    ensures ShippingCharge(NaN) == 20
  {
  }

  class Slice {
    var items: seq<ServerItem>
    var loading: bool
    var error: Option<string>
    var totalAmount: Number
    var shippingCharge: int

    constructor ()
      ensures items == [] && !loading && error == None
      ensures totalAmount == Finite(0) && shippingCharge == 0
    {
      items, loading, error := [], false, None;
      totalAmount, shippingCharge := Finite(0), 0;
    }

    /** `calculateTotals`: the running sum over the lines, then the tier for it. */
    method CalculateTotals()
      modifies this
      ensures totalAmount == Total(items) && shippingCharge == ShippingCharge(Total(items))
      ensures items == old(items) && loading == old(loading) && error == old(error)
    {
      var acc := Finite(0);
      var i := 0;
      while i < |items|
        invariant 0 <= i <= |items|
        invariant acc == Total(items[..i])
      {
        assert items[..i + 1][..i] == items[..i];
        acc := Plus(acc, Times(ItemPrice(items[i]), items[i].quantity));
        i := i + 1;
      }
      assert items[..i] == items;
      totalAmount := acc;
      if acc.Finite? && acc.value <= 200 {
        shippingCharge := 30;
      } else if acc.Finite? && acc.value <= 400 {
        shippingCharge := 25;
      } else {
        shippingCharge := 20;
      }
    }

    /** Every thunk's `pending` case. */
    method Pending()
      modifies this
      ensures loading && error == None
      ensures items == old(items) && totalAmount == old(totalAmount) && shippingCharge == old(shippingCharge)
    {
      loading, error := true, None;
    }

    /** The `fulfilled` case of fetchCart, addItemToCart and updateCartItemQuantity: the server's list replaces the cart. */
    method ItemsFulfilled(payload: seq<ServerItem>)
      modifies this
      ensures items == payload && !loading && error == None
      ensures totalAmount == old(totalAmount) && shippingCharge == old(shippingCharge)
    {
      items, loading, error := payload, false, None;
    }

    /** removeCartItem's `fulfilled` case: every line with that id leaves; the totals are not recomputed. */
    method RemoveFulfilled(id: int)
      modifies this
      ensures items == Filter(old(items), (x: ServerItem) => x.id != id)
      ensures !loading && error == None
      ensures totalAmount == old(totalAmount) && shippingCharge == old(shippingCharge)
    {
      items := Filter(items, (x: ServerItem) => x.id != id);
      loading, error := false, None;
    }

    /** clearCart's `fulfilled` case. */
    method ClearFulfilled()
      modifies this
      ensures items == [] && !loading && error == None
      ensures totalAmount == Finite(0) && shippingCharge == 0
    {
      items, loading, error := [], false, None;
      totalAmount, shippingCharge := Finite(0), 0;
    }

    /** Every thunk's `rejected` case: the items stay, the message falls back when absent. */
    method Rejected(t: Thunk, message: Option<string>)
      modifies this
      ensures !loading && error == Some(OrDefault(message, Fallback(t))) && error.value != ""
      ensures items == old(items) && totalAmount == old(totalAmount) && shippingCharge == old(shippingCharge)
    {
      loading := false;
      error := Some(OrDefault(message, Fallback(t)));
    }
  }
}
