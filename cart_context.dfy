/**
 * The local cart store: a reducer over {items, totalItems, totalPrice} with four
 * actions, the provider that persists every saved state under one storage key, and
 * the public `addToCart` / `removeFromCart` / `updateQuantity` / `clearCart` wrappers.
 *
 * A line's `price` is the number the store reads from it with
 * `parseFloat(price.toString().replace(/,/g, ''))` (see `Prices.CartPrice`).
 */
module CartContext {
  import opened Wrappers
  import opened Sequences

  datatype CartItem = CartItem(
    id: int,
    name: string,
    price: int,
    image: string,
    color: string,
    colorVariantId: Option<int>,
    size: Option<string>,
    sizeVariantId: Option<int>,
    quantity: int)

  datatype CartState = CartState(items: seq<CartItem>, totalItems: int, totalPrice: int)

  const InitialState: CartState := CartState([], 0, 0)

  const StorageKey: string := "hashtagFashionCart"

  /** The fields REMOVE_FROM_CART and UPDATE_QUANTITY use to find a line. */
  datatype LineRef = LineRef(id: int, color: string, colorVariantId: Option<int>, sizeVariantId: Option<int>)

  datatype Action =
    | AddToCart(payload: CartItem)
    | RemoveFromCart(target: LineRef)
    | UpdateQuantity(target: LineRef, quantity: int)
    | ClearCart
    | Unhandled(actionType: string)  // any other action type

  /**
   * What the reducer does with an action: return a new state (which is then saved to
   * storage), return the old state early (nothing is saved), or throw.
   */
  datatype Outcome = Saved(next: CartState) | Unchanged | Thrown(message: string)

  // ---------------------------------------------------------------------------
  // Identity of a line

  /** A variant id JavaScript treats as false: null, undefined or 0. */
  predicate Falsy(v: Option<int>) { v == None || v == Some(0) }

  /** `v || null` */
  function OrNull(v: Option<int>): Option<int> { if Falsy(v) then None else v }

  /** `size || null` */
  function SizeOrNull(s: Option<string>): Option<string> { if s == None || s == Some("") then None else s }

  /** The line ADD_TO_CART appends: missing variant ids and size normalised to null. */
  function Normalised(p: CartItem): CartItem
  {
    p.(colorVariantId := OrNull(p.colorVariantId), size := SizeOrNull(p.size), sizeVariantId := OrNull(p.sizeVariantId))
  }

  /** ADD_TO_CART's identity: id, colour and both variant ids strictly equal. */
  predicate SameLine(item: CartItem, p: CartItem)
  {
    item.id == p.id && item.color == p.color
    && item.colorVariantId == p.colorVariantId && item.sizeVariantId == p.sizeVariantId
  }

  /** REMOVE_FROM_CART and UPDATE_QUANTITY's identity: a falsy variant id matches any. */
  predicate Matches(item: CartItem, r: LineRef)
  {
    item.id == r.id && item.color == r.color
    && (Falsy(r.colorVariantId) || item.colorVariantId == r.colorVariantId)
    && (Falsy(r.sizeVariantId) || item.sizeVariantId == r.sizeVariantId)
  }

  /** `findIndex` with ADD_TO_CART's identity. */
  function FindLine(items: seq<CartItem>, p: CartItem): (r: Option<nat>)
    ensures r.Some? ==> r.value < |items| && SameLine(items[r.value], p)
    ensures r.Some? ==> forall j :: 0 <= j < r.value ==> !SameLine(items[j], p)
    ensures r.None? <==> forall j :: 0 <= j < |items| ==> !SameLine(items[j], p)
  {
    if items == [] then None
    else if SameLine(items[0], p) then Some(0)
    else match FindLine(items[1..], p)
      case None => None
      case Some(i) => Some(i + 1)
  }

  /** `find` / `findIndex` with the wildcard identity. */
  function FindMatch(items: seq<CartItem>, r: LineRef): (k: Option<nat>)
    ensures k.Some? ==> k.value < |items| && Matches(items[k.value], r)
    ensures k.Some? ==> forall j :: 0 <= j < k.value ==> !Matches(items[j], r)
    ensures k.None? <==> forall j :: 0 <= j < |items| ==> !Matches(items[j], r)
  {
    if items == [] then None
    else if Matches(items[0], r) then Some(0)
    else match FindMatch(items[1..], r)
      case None => None
      case Some(i) => Some(i + 1)
  }

  /** `filter` keeping the lines that do not match. */
  function KeepUnmatched(items: seq<CartItem>, r: LineRef): (out: seq<CartItem>)
    ensures forall x :: x in out <==> x in items && !Matches(x, r)
    ensures Subsequence(out, items)
  {
    if items == [] then []
    else if Matches(items[0], r) then KeepUnmatched(items[1..], r)
    else [items[0]] + KeepUnmatched(items[1..], r)
  }

  // ---------------------------------------------------------------------------
  // Totals

  function Quantity(items: seq<CartItem>): int
  {
    if items == [] then 0 else items[0].quantity + Quantity(items[1..])
  }

  function Value(items: seq<CartItem>): int
  {
    if items == [] then 0 else items[0].price * items[0].quantity + Value(items[1..])
  }

  /** The totals are exactly the sums over the lines. */
  predicate TotalsConsistent(s: CartState)
  {
    s.totalItems == Quantity(s.items) && s.totalPrice == Value(s.items)
  }

  // ---------------------------------------------------------------------------
  // The reducer

  function Add(s: CartState, p: CartItem): CartState
  {
    var amount := p.price * p.quantity;
    match FindLine(s.items, p)
    case Some(i) =>
      CartState(s.items[i := s.items[i].(quantity := s.items[i].quantity + p.quantity)],
                s.totalItems + p.quantity, s.totalPrice + amount)
    case None =>
      CartState(s.items + [Normalised(p)], s.totalItems + p.quantity, s.totalPrice + amount)
  }

  function Remove(s: CartState, r: LineRef): Outcome
  {
    match FindMatch(s.items, r)
    case None => Unchanged
    case Some(i) =>
      var gone := s.items[i];
      Saved(CartState(KeepUnmatched(s.items, r),
                      s.totalItems - gone.quantity, s.totalPrice - gone.price * gone.quantity))
  }

  function Update(s: CartState, r: LineRef, quantity: int): Outcome
  {
    match FindMatch(s.items, r)
    case None => Unchanged
    case Some(i) =>
      var item := s.items[i];
      var diff := quantity - item.quantity;
      Saved(CartState(s.items[i := item.(quantity := quantity)],
                      s.totalItems + diff, s.totalPrice + item.price * diff))
  }

  function Reduce(s: CartState, a: Action): Outcome
  {
    match a
    case AddToCart(p) => Saved(Add(s, p))
    case RemoveFromCart(r) => Remove(s, r)
    case UpdateQuantity(r, q) => Update(s, r, q)
    case ClearCart => Saved(InitialState)
    case Unhandled(t) => Thrown("Unhandled action type: " + t)
  }

  /** The state after an action; a thrown action leaves the state where it was. */
  function Next(s: CartState, a: Action): CartState
  {
    match Reduce(s, a)
    case Saved(t) => t
    case Unchanged => s
    case Thrown(_) => s
  }

  // ---------------------------------------------------------------------------
  // The public wrappers

  /** `addToCart(item)`: a falsy quantity becomes 1, variant ids and size are normalised. */
  function PrepareAdd(item: CartItem): (p: CartItem)
    ensures p.quantity == (if item.quantity == 0 then 1 else item.quantity)
    ensures p == Normalised(p)
    ensures p.colorVariantId == OrNull(item.colorVariantId) && p.sizeVariantId == OrNull(item.sizeVariantId)
    ensures p.id == item.id && p.color == item.color && p.price == item.price
  {
    Normalised(item.(quantity := if item.quantity == 0 then 1 else item.quantity))
  }

  /** The state restored at start-up: the stored cart, or the empty one. */
  function Restore(stored: map<string, CartState>): CartState
  {
    if StorageKey in stored then stored[StorageKey] else InitialState
  }

  class CartProvider {
    var state: CartState
    /** Browser storage, key to the saved cart. */
    var storage: map<string, CartState>

    constructor (stored: map<string, CartState>)
      ensures storage == stored && state == Restore(stored)
    {
      storage := stored;
      state := Restore(stored);
    }

    /** One reducer step: a saved state is also written to storage; a throw changes nothing. */
    method Dispatch(a: Action) returns (error: Option<string>)
      modifies this
      ensures state == Next(old(state), a)
      ensures Reduce(old(state), a).Saved? ==> storage == old(storage)[StorageKey := state]
      ensures !Reduce(old(state), a).Saved? ==> storage == old(storage)
      ensures error == (if Reduce(old(state), a).Thrown? then Some(Reduce(old(state), a).message) else None)
    {
      var outcome := Reduce(state, a);
      match outcome {
        case Saved(t) =>
          state := t;
          storage := storage[StorageKey := t];
          error := None;
        case Unchanged =>
          error := None;
        case Thrown(m) =>
          error := Some(m);
      }
    }

    method AddToCart(item: CartItem)
      modifies this
      ensures state == Add(old(state), PrepareAdd(item))
      ensures storage == old(storage)[StorageKey := state]
    {
      var _ := Dispatch(Action.AddToCart(PrepareAdd(item)));
    }

    /** `removeFromCart(id, color, color_variant_id = null, size_variant_id = null)` */
    method RemoveFromCart(id: int, color: string, colorVariantId: Option<int>, sizeVariantId: Option<int>)
      modifies this
      ensures state == Next(old(state), Action.RemoveFromCart(LineRef(id, color, colorVariantId, sizeVariantId)))
      ensures FindMatch(old(state).items, LineRef(id, color, colorVariantId, sizeVariantId)).None? ==>
                state == old(state) && storage == old(storage)
    {
      var _ := Dispatch(Action.RemoveFromCart(LineRef(id, color, colorVariantId, sizeVariantId)));
    }

    /** `updateQuantity(id, color, quantity, color_variant_id = null, size_variant_id = null)` */
    method UpdateQuantity(id: int, color: string, quantity: int, colorVariantId: Option<int>, sizeVariantId: Option<int>)
      modifies this
      ensures state == Next(old(state), Action.UpdateQuantity(LineRef(id, color, colorVariantId, sizeVariantId), quantity))
      ensures FindMatch(old(state).items, LineRef(id, color, colorVariantId, sizeVariantId)).None? ==>
                state == old(state) && storage == old(storage)
    {
      var _ := Dispatch(Action.UpdateQuantity(LineRef(id, color, colorVariantId, sizeVariantId), quantity));
    }

    method ClearCart()
      modifies this
      ensures state == InitialState
      ensures storage == old(storage)[StorageKey := InitialState]
    {
      var _ := Dispatch(Action.ClearCart);
    }
  }
}
