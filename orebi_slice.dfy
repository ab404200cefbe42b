/**
 * The `orebi` Redux slice: a product cart keyed by `_id` plus the order and preorder
 * histories. Its reducers mutate the draft state in place, so the slice is a class
 * whose methods reassign its three fields.
 */
module OrebiSlice {
  import opened Wrappers
  import opened Sequences

  datatype Product = Product(id: int, name: string, price: int, quantity: int)

  /** An order as recorded in the history; the fields CLEAN_INVALID_ORDERS inspects. */
  datatype Order = Order(id: int, customerName: string, customerEmail: string, totalAmount: int)

  /** `products.find(product => product._id === id)`, as an index. */
  function FindProduct(products: seq<Product>, id: int): Option<nat>
  {
    FindFirst(products, (p: Product) => p.id == id)
  }

  /** `products.filter(item => item._id !== id)` */
  function WithoutId(products: seq<Product>, id: int): seq<Product>
  {
    Filter(products, (p: Product) => p.id != id)
  }

  /** An entry CLEAN_INVALID_ORDERS keeps: present, a positive total, and a customer name or email. */
  predicate ValidOrder(o: Option<Order>)
  {
    o.Some? && o.value.totalAmount > 0 && (o.value.customerName != "" || o.value.customerEmail != "")
  }

  function ValidOrders(orders: seq<Option<Order>>): seq<Option<Order>>
  {
    Filter(orders, ValidOrder)
  }

  /** Cleaning keeps exactly the valid entries, in order, and cleaning twice is cleaning once. */
  lemma CleanInvalid(orders: seq<Option<Order>>)
    ensures forall o :: o in ValidOrders(orders) <==> o in orders && ValidOrder(o)
    ensures Subsequence(ValidOrders(orders), orders)
    ensures ValidOrders(ValidOrders(orders)) == ValidOrders(orders)
  {
    FilterIdempotent(orders, ValidOrder);
  }

  /** A history already free of invalid orders is left exactly as it is. */
  lemma CleanKeepsValid(orders: seq<Option<Order>>)
    requires forall j :: 0 <= j < |orders| ==> ValidOrder(orders[j])
    ensures ValidOrders(orders) == orders
  {
    FilterKeepsAll(orders, ValidOrder);
  }

  class Store {
    var products: seq<Product>
    var orders: seq<Option<Order>>
    var preorders: seq<Option<Order>>

    /** Every product in the cart has a quantity of at least 1. */
    ghost predicate Valid()
      reads this
    {
      forall j :: 0 <= j < |products| ==> products[j].quantity >= 1
    }

    constructor ()
      ensures Valid()
      ensures products == [] && orders == [] && preorders == []
    {
      products, orders, preorders := [], [], [];
    }

    /** A known `_id` gains exactly one unit, whatever the payload's quantity; a new one is pushed with quantity 1. */
    method AddToCart(payload: Product)
      requires Valid()
      modifies this
      ensures Valid()
      ensures orders == old(orders) && preorders == old(preorders)
      ensures match FindProduct(old(products), payload.id)
        case Some(i) => products == old(products)[i := old(products)[i].(quantity := old(products)[i].quantity + 1)]
        case None => products == old(products) + [payload.(quantity := 1)]
    {
      match FindProduct(products, payload.id) {
        case Some(i) =>
          products := products[i := products[i].(quantity := products[i].quantity + 1)];
        case None =>
          products := products + [payload.(quantity := 1)];
      }
    }

    method DeleteItem(id: int)
      requires Valid()
      modifies this
      ensures Valid()
      ensures products == WithoutId(old(products), id)
      ensures orders == old(orders) && preorders == old(preorders)
    {
      products := WithoutId(products, id);
      forall j | 0 <= j < |products| ensures products[j].quantity >= 1 {
        assert products[j] in old(products);
      }
    }

    method IncreaseQuantity(id: int)
      requires Valid()
      modifies this
      ensures Valid()
      ensures orders == old(orders) && preorders == old(preorders)
      ensures match FindProduct(old(products), id)
        case Some(i) => products == old(products)[i := old(products)[i].(quantity := old(products)[i].quantity + 1)]
        case None => products == old(products)
    {
      match FindProduct(products, id) {
        case Some(i) =>
          products := products[i := products[i].(quantity := products[i].quantity + 1)];
        case None =>
      }
    }

    /** `drecreaseQuantity`: one unit off the first product with that `_id`, only while it has more than one. */
    method DecreaseQuantity(id: int)
      requires Valid()
      modifies this
      ensures Valid()
      ensures orders == old(orders) && preorders == old(preorders)
      ensures match FindProduct(old(products), id)
        case Some(i) =>
          products == if old(products)[i].quantity > 1
                      then old(products)[i := old(products)[i].(quantity := old(products)[i].quantity - 1)]
                      else old(products)
        case None => products == old(products)
    {
      match FindProduct(products, id) {
        case Some(i) =>
          if products[i].quantity > 1 {
            products := products[i := products[i].(quantity := products[i].quantity - 1)];
          }
        case None =>
      }
    }

    method ResetCart()
      modifies this
      ensures Valid()
      ensures products == [] && orders == old(orders) && preorders == old(preorders)
    {
      products := [];
    }

    method AddOrder(order: Option<Order>)
      requires Valid()
      modifies this
      ensures Valid()
      ensures orders == old(orders) + [order]
      ensures products == old(products) && preorders == old(preorders)
    {
      orders := orders + [order];
    }

    method AddPreorder(preorder: Option<Order>)
      requires Valid()
      modifies this
      ensures Valid()
      ensures preorders == old(preorders) + [preorder]
      ensures products == old(products) && orders == old(orders)
    {
      preorders := preorders + [preorder];
    }

    method SetOrders(payload: seq<Option<Order>>)
      requires Valid()
      modifies this
      ensures Valid()
      ensures orders == payload && products == old(products) && preorders == old(preorders)
    {
      orders := payload;
    }

    method SetPreorders(payload: seq<Option<Order>>)
      requires Valid()
      modifies this
      ensures Valid()
      ensures preorders == payload && products == old(products) && orders == old(orders)
    {
      preorders := payload;
    }

    method CleanInvalidOrders()
      requires Valid()
      modifies this
      ensures Valid()
      ensures orders == ValidOrders(old(orders))
      ensures products == old(products) && preorders == old(preorders)
    {
      orders := ValidOrders(orders);
    }
  }
}
