/**
 * What the cart reducer promises, and where it stops promising: the totals stay equal
 * to the sums over the lines under ADD_TO_CART (when the price agrees with the line's),
 * UPDATE_QUANTITY and CLEAR_CART, but REMOVE_FROM_CART keeps them only while at most
 * one line matches the request.
 */
module CartProperties {
  import opened Wrappers
  import opened CartContext

  // ---------------------------------------------------------------------------
  // Sums over lines

  lemma {:induction false} SumsAppend(items: seq<CartItem>, x: CartItem)
    ensures Quantity(items + [x]) == Quantity(items) + x.quantity
    ensures Value(items + [x]) == Value(items) + x.price * x.quantity
  {
    if items == [] {
      assert items + [x] == [x];
    } else {
      assert (items + [x])[1..] == items[1..] + [x];
      SumsAppend(items[1..], x);
    }
  }

  lemma {:induction false} SumsReplace(items: seq<CartItem>, i: nat, x: CartItem)
    requires i < |items|
    ensures Quantity(items[i := x]) == Quantity(items) - items[i].quantity + x.quantity
    ensures Value(items[i := x]) == Value(items) - items[i].price * items[i].quantity + x.price * x.quantity
  {
    if i == 0 {
      assert items[i := x][1..] == items[1..];
    } else {
      assert items[i := x][1..] == items[1..][i - 1 := x];
      SumsReplace(items[1..], i - 1, x);
    }
  }

  lemma {:induction false} KeepAllWhenNoneMatch(items: seq<CartItem>, r: LineRef)
    requires forall j :: 0 <= j < |items| ==> !Matches(items[j], r)
    ensures KeepUnmatched(items, r) == items
  {
    if items != [] {
      KeepAllWhenNoneMatch(items[1..], r);
    }
  }

  lemma {:induction false} KeepUnmatchedAppend(items: seq<CartItem>, x: CartItem, r: LineRef)
    ensures KeepUnmatched(items + [x], r) == KeepUnmatched(items, r) + KeepUnmatched([x], r)
  {
    if items == [] {
      assert items + [x] == [x];
    } else {
      assert (items + [x])[1..] == items[1..] + [x];
      KeepUnmatchedAppend(items[1..], x, r);
    }
  }

  /** Filtering out the one matching line takes exactly its quantity and amount off the sums. */
  lemma {:induction false} SumsRemoveSingle(items: seq<CartItem>, r: LineRef, i: nat)
    requires i < |items| && Matches(items[i], r)
    requires forall j :: 0 <= j < |items| && j != i ==> !Matches(items[j], r)
    ensures Quantity(KeepUnmatched(items, r)) == Quantity(items) - items[i].quantity
    ensures Value(KeepUnmatched(items, r)) == Value(items) - items[i].price * items[i].quantity
  {
    if i == 0 {
      KeepAllWhenNoneMatch(items[1..], r);
    } else {
      SumsRemoveSingle(items[1..], r, i - 1);
    }
  }

  predicate AtMostOneMatch(items: seq<CartItem>, r: LineRef)
  {
    forall j, k :: 0 <= j < |items| && 0 <= k < |items| && Matches(items[j], r) && Matches(items[k], r) ==> j == k
  }

  function RefOf(p: CartItem): LineRef
  {
    LineRef(p.id, p.color, p.colorVariantId, p.sizeVariantId)
  }

  // ---------------------------------------------------------------------------
  // ADD_TO_CART

  /** Adding onto the first exactly-matching line raises only that line's quantity. */
  lemma AddToExistingLine(s: CartState, p: CartItem, i: nat)
    requires i < |s.items| && SameLine(s.items[i], p)
    requires forall j :: 0 <= j < i ==> !SameLine(s.items[j], p)
    ensures |Add(s, p).items| == |s.items|
    ensures Add(s, p).items[i] == s.items[i].(quantity := s.items[i].quantity + p.quantity)
    ensures forall j :: 0 <= j < |s.items| && j != i ==> Add(s, p).items[j] == s.items[j]
    ensures Add(s, p).totalItems == s.totalItems + p.quantity
    ensures Add(s, p).totalPrice == s.totalPrice + p.price * p.quantity
  {
    var k := FindLine(s.items, p);
    assert k.Some?;
    assert k.value == i;
  }

  /** With no exact match, the normalised payload is appended at the end. */
  lemma AddAppendsNewLine(s: CartState, p: CartItem)
    requires forall j :: 0 <= j < |s.items| ==> !SameLine(s.items[j], p)
    ensures Add(s, p).items == s.items + [Normalised(p)]
    ensures Add(s, p).items[|s.items|].colorVariantId == OrNull(p.colorVariantId)
    ensures Add(s, p).items[|s.items|].sizeVariantId == OrNull(p.sizeVariantId)
    ensures Add(s, p).items[|s.items|].size == SizeOrNull(p.size)
    ensures Add(s, p).totalItems == s.totalItems + p.quantity
  {
  }

  /**
   * ADD_TO_CART keeps the totals equal to the sums, provided a merged line's stored price
   * is the price of the incoming payload.
   */
  lemma AddKeepsTotals(s: CartState, p: CartItem)
    requires TotalsConsistent(s)
    requires forall j :: 0 <= j < |s.items| && SameLine(s.items[j], p) ==> s.items[j].price == p.price
    ensures TotalsConsistent(Add(s, p))
  {
    match FindLine(s.items, p)
    case Some(i) =>
      var x := s.items[i].(quantity := s.items[i].quantity + p.quantity);
      SumsReplace(s.items, i, x);
      assert x.price * x.quantity == s.items[i].price * s.items[i].quantity + p.price * p.quantity;
    case None =>
      SumsAppend(s.items, Normalised(p));
  }

  /** A merge with a changed price adds the new price to the total but keeps the old one on the line. */
  lemma AddWithChangedPriceDrifts()
    ensures var line := CartItem(1, "Cap", 100, "", "Black", None, None, None, 1);
            var s := CartState([line], 1, 100);
            TotalsConsistent(s) && !TotalsConsistent(Add(s, line.(price := 150)))
  {
    var line := CartItem(1, "Cap", 100, "", "Black", None, None, None, 1);
    var s := CartState([line], 1, 100);
    var t := Add(s, line.(price := 150));
    assert FindLine(s.items, line.(price := 150)) == Some(0);
    assert t.items == [line.(quantity := 2)];
    assert Value(t.items) == 200 && t.totalPrice == 250;
  }

  /** Adding the same normalised line twice gives one line holding both quantities. */
  lemma AddSameLineTwice(s: CartState, p: CartItem, more: int)
    requires p == Normalised(p)
    requires forall j :: 0 <= j < |s.items| ==> !SameLine(s.items[j], p)
    ensures Add(Add(s, p), p.(quantity := more)).items == s.items + [p.(quantity := p.quantity + more)]
    ensures Add(Add(s, p), p.(quantity := more)).totalItems == s.totalItems + p.quantity + more
    ensures Add(Add(s, p), p.(quantity := more)).totalPrice == s.totalPrice + p.price * (p.quantity + more)
  {
    var t := Add(s, p);
    assert t.items == s.items + [p];
    AddToExistingLine(t, p.(quantity := more), |s.items|);
    assert p.price * p.quantity + p.price * more == p.price * (p.quantity + more);
  }

  // ---------------------------------------------------------------------------
  // REMOVE_FROM_CART

  /** The request returns the state untouched exactly when no line matches. */
  lemma RemoveUnchangedIffNoMatch(s: CartState, r: LineRef)
    ensures Remove(s, r) == Unchanged <==> forall j :: 0 <= j < |s.items| ==> !Matches(s.items[j], r)
    ensures Remove(s, r).Unchanged? || Remove(s, r).Saved?
  {
  }

  /** A removal drops every matching line and keeps the others in order. */
  lemma RemoveDropsEveryMatch(s: CartState, r: LineRef)
    requires Remove(s, r).Saved?
    ensures forall x :: x in Remove(s, r).next.items <==> x in s.items && !Matches(x, r)
    ensures Sequences.Subsequence(Remove(s, r).next.items, s.items)
  {
    assert FindMatch(s.items, r).Some?;
    assert Remove(s, r).next.items == KeepUnmatched(s.items, r);
  }

  /** With at most one matching line, removal keeps the totals equal to the sums. */
  lemma RemoveKeepsTotalsWhenUnique(s: CartState, r: LineRef)
    requires TotalsConsistent(s)
    requires AtMostOneMatch(s.items, r)
    ensures TotalsConsistent(Next(s, RemoveFromCart(r)))
  {
    match FindMatch(s.items, r)
    case None =>
    case Some(i) =>
      SumsRemoveSingle(s.items, r, i);
  }

  /**
   * Two sizes of one product and colour, removed with no size id: both lines go, but
   * only the first line's quantity and amount come off the totals.
   */
  lemma RemoveWithTwoMatchesDrifts()
    ensures var small := CartItem(7, "Tee", 50, "", "Red", Some(3), Some("S"), Some(10), 1);
            var large := small.(size := Some("L"), sizeVariantId := Some(11), quantity := 2);
            var s := CartState([small, large], 3, 150);
            var t := Next(s, RemoveFromCart(LineRef(7, "Red", Some(3), None)));
            TotalsConsistent(s) && t.items == [] && t.totalItems == 2 && t.totalPrice == 100
  {
    var small := CartItem(7, "Tee", 50, "", "Red", Some(3), Some("S"), Some(10), 1);
    var large := small.(size := Some("L"), sizeVariantId := Some(11), quantity := 2);
    var s := CartState([small, large], 3, 150);
    var r := LineRef(7, "Red", Some(3), None);
    assert FindMatch(s.items, r) == Some(0);
    assert s.items[1..] == [large] && [large][1..] == [];
    assert Quantity([large]) == 2 && Value([large]) == 100;
    assert TotalsConsistent(s);
    assert KeepUnmatched([large], r) == [];
    assert KeepUnmatched(s.items, r) == [];
    assert Remove(s, r) == Saved(CartState([], 2, 100));
  }

  /** Adding a fresh line and removing it by its own key restores the previous state. */
  lemma AddThenRemoveRoundTrip(s: CartState, p: CartItem)
    requires p == Normalised(p)
    requires forall j :: 0 <= j < |s.items| ==> !Matches(s.items[j], RefOf(p))
    ensures Remove(Add(s, p), RefOf(p)) == Saved(s)
  {
    AddFresh(s, p);
    RemoveLast(s.items, p, RefOf(p), s.totalItems + p.quantity, s.totalPrice + p.price * p.quantity);
  }

  /** A line with no exact match among lines that do not match its key is appended as it is. */
  lemma AddFresh(s: CartState, p: CartItem)
    requires p == Normalised(p)
    requires forall j :: 0 <= j < |s.items| ==> !Matches(s.items[j], RefOf(p))
    ensures Add(s, p) == CartState(s.items + [p], s.totalItems + p.quantity, s.totalPrice + p.price * p.quantity)
  {
    assert forall j :: 0 <= j < |s.items| ==> !SameLine(s.items[j], p);
  }

  /** Removing by the key of the last line, when no earlier line matches it, drops exactly that line. */
  lemma RemoveLast(items: seq<CartItem>, p: CartItem, r: LineRef, totalItems: int, totalPrice: int)
    requires r == RefOf(p)
    requires forall j :: 0 <= j < |items| ==> !Matches(items[j], r)
    ensures Remove(CartState(items + [p], totalItems, totalPrice), r)
              == Saved(CartState(items, totalItems - p.quantity, totalPrice - p.price * p.quantity))
  {
    var t := items + [p];
    FindMatchLast(items, p, r);
    assert t[|items|] == p;
    DropLast(items, p, r);
  }

  lemma DropLast(items: seq<CartItem>, p: CartItem, r: LineRef)
    requires r == RefOf(p)
    requires forall j :: 0 <= j < |items| ==> !Matches(items[j], r)
    ensures KeepUnmatched(items + [p], r) == items
  {
    KeepUnmatchedAppend(items, p, r);
    KeepAllWhenNoneMatch(items, r);
    assert KeepUnmatched([p], r) == [];
  }

  /** A line appended after lines that do not match is the one found. */
  lemma FindMatchLast(items: seq<CartItem>, x: CartItem, r: LineRef)
    requires forall j :: 0 <= j < |items| ==> !Matches(items[j], r)
    requires Matches(x, r)
    ensures FindMatch(items + [x], r) == Some(|items|)
  {
    var k := FindMatch(items + [x], r);
    assert (items + [x])[|items|] == x;
    assert forall j :: 0 <= j < |items| ==> (items + [x])[j] == items[j];
  }

  // ---------------------------------------------------------------------------
  // UPDATE_QUANTITY

  lemma UpdateUnchangedIffNoMatch(s: CartState, r: LineRef, quantity: int)
    ensures Update(s, r, quantity) == Unchanged <==> forall j :: 0 <= j < |s.items| ==> !Matches(s.items[j], r)
    ensures Update(s, r, quantity).Unchanged? || Update(s, r, quantity).Saved?
  {
  }

  /** Only the first matching line changes; the totals shift by the difference. */
  lemma UpdateFirstMatch(s: CartState, r: LineRef, quantity: int, i: nat)
    requires i < |s.items| && Matches(s.items[i], r)
    requires forall j :: 0 <= j < i ==> !Matches(s.items[j], r)
    ensures Update(s, r, quantity).Saved?
    ensures Update(s, r, quantity).next.items == s.items[i := s.items[i].(quantity := quantity)]
    ensures Update(s, r, quantity).next.totalItems == s.totalItems + (quantity - s.items[i].quantity)
    ensures Update(s, r, quantity).next.totalPrice == s.totalPrice + s.items[i].price * (quantity - s.items[i].quantity)
  {
    var k := FindMatch(s.items, r);
    assert k.Some?;
    assert k.value == i;
  }

  lemma UpdateKeepsTotals(s: CartState, r: LineRef, quantity: int)
    requires TotalsConsistent(s)
    ensures TotalsConsistent(Next(s, UpdateQuantity(r, quantity)))
  {
    match FindMatch(s.items, r)
    case None =>
    case Some(i) =>
      var x := s.items[i];
      SumsReplace(s.items, i, x.(quantity := quantity));
      assert x.price * quantity - x.price * x.quantity == x.price * (quantity - x.quantity);
  }

  /** Setting a line to the quantity it already has leaves the whole state as it was. */
  lemma UpdateToSameQuantity(s: CartState, r: LineRef)
    requires FindMatch(s.items, r).Some?
    ensures Update(s, r, s.items[FindMatch(s.items, r).value].quantity) == Saved(s)
  {
    var i := FindMatch(s.items, r).value;
    assert s.items[i := s.items[i].(quantity := s.items[i].quantity)] == s.items;
  }

  // ---------------------------------------------------------------------------
  // CLEAR_CART and unknown actions

  lemma ClearAndUnknown(s: CartState, t: string)
    ensures Reduce(s, ClearCart) == Saved(CartState([], 0, 0)) && TotalsConsistent(InitialState)
    ensures Reduce(s, Unhandled(t)) == Thrown("Unhandled action type: " + t)
    ensures Next(s, Unhandled(t)) == s
  {
  }
}
