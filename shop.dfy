/**
  Values shared by the storefront's cart and checkout views: catalog
  products, cart lines, and the JavaScript idiom `x || 0` that every view
  uses to read a numeric field that may be missing.
 */
module Shop {

  datatype Option<+T> = None | Some(value: T)

  /** Product and cart-line identifiers, compared with `===`. */
  type Id = int

  /** A catalog product as held in the application's `products` state.
      `stock` is None when the stored value is missing or not a number. */
  datatype Product = Product(id: Id, name: string, stock: Option<int>)

  /** One line of the shopper's cart as kept by the cart context.
      Every numeric field may be missing (None). */
  datatype CartLine = CartLine(
    id: Id,
    name: string,
    price: Option<real>,
    discount: Option<real>,
    quantity: Option<int>,
    stock: Option<int>)

  /** `x || 0` (and `parseInt(x) || 0`) on an integer field. */
  function OrZero(x: Option<int>): (r: int)
    ensures x.None? ==> r == 0
    ensures x.Some? ==> r == x.value
  {
    match x
    case None => 0
    case Some(n) => n
  }

  /** `x || 0` on a price or a discount. */
  function RealOrZero(x: Option<real>): (r: real)
    ensures x.None? ==> r == 0.0
    ensures x.Some? ==> r == x.value
  {
    match x
    case None => 0.0
    case Some(v) => v
  }
}
