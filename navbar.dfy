/**
  The navigation bar: the cart badge (item count and its capped label),
  whether the cart link is shown, and the login gate on the cart link.
 */
module Navbar {
  import opened Shop
  import Checkout

  // ---------------------------------------------------------------------
  // Item count

  /** One step of `cartItems.reduce((total, item) => total + item.quantity, 0)`.
      None stands for NaN: adding a missing quantity gives NaN, and NaN
      stays NaN. */
  function AddQuantity(total: Option<int>, line: CartLine): (r: Option<int>)
    ensures r.Some? <==> total.Some? && line.quantity.Some?
    ensures r.Some? ==> r.value == total.value + line.quantity.value
  {
    match (total, line.quantity)
    case (Some(t), Some(q)) => Some(t + q)
    case _ => None
  }

  /** The left fold that `reduce` performs: an empty cart gives the start
      value back, and once the running count is NaN it stays NaN. */
  function Reduce(total: Option<int>, lines: seq<CartLine>): (r: Option<int>)
    ensures lines == [] ==> r == total
    ensures total.None? ==> r.None?
    decreases |lines|
  {
    if lines == [] then total else Reduce(AddQuantity(total, lines[0]), lines[1..])
  }

  /** `itemCount`: a number exactly when every line has a quantity, and 0
      for an empty cart. */
  function ItemCount(cartItems: seq<CartLine>): (r: Option<int>)
    ensures r.Some? <==> AllQuantitiesPresent(cartItems)
    ensures cartItems == [] ==> r == Some(0)
  {
    ReduceSums(0, cartItems);
    Reduce(Some(0), cartItems)
  }

  predicate AllQuantitiesPresent(lines: seq<CartLine>)
  {
    forall k :: 0 <= k < |lines| ==> lines[k].quantity.Some?
  }

  /** The total number of units in the cart, summed line by line. */
  function TotalQuantity(lines: seq<CartLine>): int
  {
    if lines == [] then 0 else OrZero(lines[0].quantity) + TotalQuantity(lines[1..])
  }

  lemma {:induction false} ReduceSums(acc: int, lines: seq<CartLine>)
    ensures Reduce(Some(acc), lines) ==
            if AllQuantitiesPresent(lines) then Some(acc + TotalQuantity(lines)) else None
    decreases |lines|
  {
    if lines != [] {
      assert forall k :: 1 <= k < |lines| ==> lines[k] == lines[1..][k - 1];
      if lines[0].quantity.Some? {
        ReduceSums(acc + lines[0].quantity.value, lines[1..]);
      }
    }
  }

  /** The fold counts every unit in the cart: it is the sum of the
      quantities (0 for an empty cart), or NaN when a quantity is missing. */
  lemma ItemCountIsTotal(cartItems: seq<CartLine>)
    ensures ItemCount(cartItems) ==
            if AllQuantitiesPresent(cartItems) then Some(TotalQuantity(cartItems)) else None
    ensures cartItems == [] ==> ItemCount(cartItems) == Some(0)
  {
    ReduceSums(0, cartItems);
  }

  /** After a checkout the badge count drops by exactly the units checked
      out: the selected and the remaining lines share the cart's units. */
  lemma {:induction false} CheckoutSplitsCount(cartItems: seq<CartLine>, selection: seq<Id>)
    ensures TotalQuantity(cartItems) ==
            TotalQuantity(Checkout.LinesBySelection(cartItems, selection, true)) +
            TotalQuantity(Checkout.LinesBySelection(cartItems, selection, false))
  {
    if cartItems != [] {
      CheckoutSplitsCount(cartItems[1..], selection);
    }
  }

  // ---------------------------------------------------------------------
  // Badge

  /** `cartBadgeText`: Overflow is the label "99+"; otherwise the count
      itself is shown (NaN stays NaN). */
  datatype BadgeText = Overflow | Count(n: int) | NotANumber

  function CartBadgeText(itemCount: Option<int>): (r: BadgeText)
    ensures r == Overflow <==> itemCount.Some? && itemCount.value > 99
    ensures r.Count? ==> itemCount == Some(r.n) && r.n <= 99
    ensures itemCount.None? <==> r == NotANumber
  {
    match itemCount
    case None => NotANumber
    case Some(n) => if n > 99 then Overflow else Count(n)
  }

  /** The badge is rendered only for a positive count (NaN > 0 is false). */
  predicate BadgeShown(itemCount: Option<int>): (r: bool)
    ensures r ==> CartBadgeText(itemCount) != NotANumber
    ensures itemCount.None? || itemCount == Some(0) ==> !r
  {
    itemCount.Some? && itemCount.value > 0
  }

  /** A shown badge reads "99+" or a count from 1 to 99, and it is shown
      only when the cart holds some line with a positive quantity. */
  lemma {:induction false} BadgeReflectsCart(cartItems: seq<CartLine>)
    requires BadgeShown(ItemCount(cartItems))
    ensures CartBadgeText(ItemCount(cartItems)) == Overflow ||
            (CartBadgeText(ItemCount(cartItems)).Count? && 1 <= CartBadgeText(ItemCount(cartItems)).n <= 99)
    ensures exists k :: 0 <= k < |cartItems| && OrZero(cartItems[k].quantity) > 0
  {
    ItemCountIsTotal(cartItems);
    PositiveTotalHasPositiveLine(cartItems);
  }

  lemma {:induction false} PositiveTotalHasPositiveLine(lines: seq<CartLine>)
    requires TotalQuantity(lines) > 0
    ensures exists k :: 0 <= k < |lines| && OrZero(lines[k].quantity) > 0
  {
    if OrZero(lines[0].quantity) <= 0 {
      PositiveTotalHasPositiveLine(lines[1..]);
      var k :| 0 <= k < |lines[1..]| && OrZero(lines[1..][k].quantity) > 0;
      assert lines[k + 1] == lines[1..][k];
    }
  }

  // ---------------------------------------------------------------------
  // Routes and the cart link

  /** `location.pathname.startsWith('/admin')`. */
  function IsAdminRoute(pathname: string): (r: bool)
    ensures r <==> |pathname| >= 6 && pathname[..6] == "/admin"
  {
    "/admin" <= pathname
  }

  /** The signed-in user, if any; only the role matters here. */
  datatype User = User(role: string)

  /** The cart link is hidden on admin pages and from administrators. */
  function CartLinkShown(pathname: string, currentUser: Option<User>): (r: bool)
    ensures IsAdminRoute(pathname) ==> !r
    ensures currentUser.Some? && currentUser.value.role == "admin" ==> !r
    ensures !IsAdminRoute(pathname) && currentUser.None? ==> r
    ensures !IsAdminRoute(pathname) && currentUser.Some? && currentUser.value.role != "admin" ==> r
  {
    !IsAdminRoute(pathname) && (currentUser.None? || currentUser.value.role != "admin")
  }

  /** `handleCartClick`: without a signed-in user the link's navigation is
      prevented, a warning is raised and the page goes to "/login";
      otherwise the click is left alone. The `showAlert` call is not
      guarded: without that prop (`canShowAlert` false) it throws, so the
      handler stops after `preventDefault` and never navigates. */
  method HandleCartClick(currentUser: Option<User>, canShowAlert: bool)
    returns (prevented: bool, alerted: bool, threw: bool, redirect: Option<string>)
    ensures prevented <==> currentUser.None?
    ensures alerted <==> currentUser.None? && canShowAlert
    ensures threw <==> currentUser.None? && !canShowAlert
    ensures redirect == if currentUser.None? && canShowAlert then Some("/login") else None
  {
    prevented, alerted, threw, redirect := false, false, false, None;
    if currentUser.None? {
      prevented := true;
      if !canShowAlert {
        threw := true;
        return;
      }
      alerted := true;
      redirect := Some("/login");
    }
  }
}
