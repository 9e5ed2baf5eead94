/**
  One row of the cart page: whether the line is selected, its selling price
  and line total, and the three button handlers that guard the cart
  context's mutators (remove, decrease, increase).

  The mutators themselves belong to the cart context, whose code is not part
  of this model; a handler is modelled by the calls it makes into the
  context, in order. The browser dialogs are inputs and outputs: the
  answer of `window.confirm` is the parameter `confirmed`, and an `alert`
  is reported as a boolean.
 */
module CartItem {
  import opened Shop

  /** A call from a cart row into the cart context. */
  datatype CartCall =
    | RemoveFromCart(id: Id)
    | IncreaseQuantity(id: Id)
    | DecreaseQuantity(id: Id)

  /** A row is shown as selected (its checkbox ticked). */
  function IsSelected(selectedItems: seq<Id>, item: CartLine): (r: bool)
    ensures r <==> exists k :: 0 <= k < |selectedItems| && selectedItems[k] == item.id
  {
    item.id in selectedItems
  }

  /** The price of one unit after the line's percentage discount. */
  function SellingPrice(price: Option<real>, discount: Option<real>): (r: real)
    ensures price.None? ==> r == 0.0
    ensures discount.None? ==> r == RealOrZero(price)
    ensures 0.0 <= RealOrZero(price) && 0.0 <= RealOrZero(discount) <= 100.0 ==>
              0.0 <= r <= RealOrZero(price)
    ensures RealOrZero(discount) == 100.0 ==> r == 0.0
  {
    var p := RealOrZero(price);
    var keep := 1.0 - RealOrZero(discount) / 100.0;
    ScaleBetween(p, keep, 1.0);
    p * keep
  }

  /** Scaling a non-negative amount by a factor in [0, hi] lands between 0
      and the amount scaled by hi. */
  lemma ScaleBetween(p: real, k: real, hi: real)
    ensures 0.0 <= p && 0.0 <= k <= hi ==> 0.0 <= p * k <= p * hi
  {
    if 0.0 <= p && 0.0 <= k <= hi {
      ScaleMonotone(p, 0.0, k);
      ScaleMonotone(p, k, hi);
    }
  }

  /** Multiplying by a non-negative factor keeps the order of two reals. */
  lemma ScaleMonotone(p: real, a: real, b: real)
    requires 0.0 <= p && a <= b
    ensures p * a <= p * b
  {
    assert p * b - p * a == p * (b - a);
  }

  /** A larger discount never yields a higher selling price. */
  lemma SellingPriceAntitone(price: Option<real>, d1: Option<real>, d2: Option<real>)
    requires 0.0 <= RealOrZero(price)
    requires RealOrZero(d1) <= RealOrZero(d2)
    ensures SellingPrice(price, d2) <= SellingPrice(price, d1)
  {
    var p := RealOrZero(price);
    var k1, k2 := 1.0 - RealOrZero(d1) / 100.0, 1.0 - RealOrZero(d2) / 100.0;
    ScaleMonotone(p, k2, k1);
    calc {
      SellingPrice(price, d2);
      p * k2;
    <=
      p * k1;
      SellingPrice(price, d1);
    }
  }

  /** The amount shown in the row's total column. */
  function LineTotal(item: CartLine): (r: real)
    ensures item.quantity.None? || item.quantity == Some(0) ==> r == 0.0
    ensures 0 <= OrZero(item.quantity) && 0.0 <= RealOrZero(item.price) &&
            0.0 <= RealOrZero(item.discount) <= 100.0 ==>
              0.0 <= r <= OrZero(item.quantity) as real * RealOrZero(item.price)
  {
    var q := OrZero(item.quantity) as real;
    var s := SellingPrice(item.price, item.discount);
    ScaleBetween(q, s, RealOrZero(item.price));
    q * s
  }

  /** `handleRemove`: the line is removed only when the shopper confirms. */
  method HandleRemove(item: CartLine, confirmed: bool) returns (calls: seq<CartCall>)
    ensures confirmed ==> calls == [RemoveFromCart(item.id)]
    ensures !confirmed ==> calls == []
  {
    calls := [];
    if confirmed {
      calls := [RemoveFromCart(item.id)];
    }
  }

  /** `handleDecrease`: at quantity 1 the line goes through the confirmed
      removal instead of being decremented; `prompted` says whether the
      confirmation dialog was shown. */
  method HandleDecrease(item: CartLine, confirmed: bool) returns (calls: seq<CartCall>, prompted: bool)
    ensures prompted <==> item.quantity == Some(1)
    ensures prompted ==> calls == (if confirmed then [RemoveFromCart(item.id)] else [])
    ensures !prompted ==> calls == [DecreaseQuantity(item.id)]
  {
    if item.quantity == Some(1) {
      prompted := true;
      calls := HandleRemove(item, confirmed);
    } else {
      prompted := false;
      calls := [DecreaseQuantity(item.id)];
    }
  }

  /** `handleIncrease`: blocked, with an alert, once one more unit would
      exceed the stock recorded on the line. */
  method HandleIncrease(item: CartLine) returns (calls: seq<CartCall>, alerted: bool)
    ensures alerted <==> OrZero(item.quantity) + 1 > OrZero(item.stock)
    ensures alerted ==> calls == []
    ensures !alerted ==> calls == [IncreaseQuantity(item.id)]
    ensures IncreaseQuantity(item.id) in calls ==> OrZero(item.quantity) + 1 <= OrZero(item.stock)
  {
    var currentQuantity := OrZero(item.quantity);
    var stock := OrZero(item.stock);
    if currentQuantity + 1 > stock {
      alerted := true;
      calls := [];
      return;
    }
    alerted := false;
    calls := [IncreaseQuantity(item.id)];
  }
}
