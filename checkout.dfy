/**
  The checkout page: the cart lines chosen for purchase, the order totals,
  and the order commit (`handleConfirmOrderPlacement`), which re-checks
  every ordered quantity against the catalog's current stock and then
  either changes nothing or applies the whole order at once.
 */
module Checkout {
  import opened Shop
  import CartItem

  /** The flat shipping fee added to every order. */
  const ShippingFee: real := 50.0

  datatype PaymentMethod = Card | CashOnDelivery

  /** The snapshot shown on the receipt after a successful commit. */
  datatype Order = Order(
    items: seq<CartLine>,
    subtotal: real,
    shipping: real,
    total: real,
    paymentMethod: PaymentMethod)

  /** The messages the page raises through `showAlert`. */
  datatype Alert =
    | NothingToCheckout
    | NotEnoughStock(name: string, available: int)
    | OrderPlaced

  // ---------------------------------------------------------------------
  // Lines to check out

  /** The lines of `lines`, in order, whose id is (keep) or is not (!keep)
      in the selection. */
  function LinesBySelection(lines: seq<CartLine>, selection: seq<Id>, keep: bool): (r: seq<CartLine>)
    ensures |r| <= |lines|
  {
    if lines == [] then []
    else
      var rest := LinesBySelection(lines[1..], selection, keep);
      if (lines[0].id in selection) == keep then [lines[0]] + rest else rest
  }

  /** A line is kept exactly when it is in the cart and its id's presence
      in the selection is as asked. */
  lemma {:induction false} LinesBySelectionMember(lines: seq<CartLine>, selection: seq<Id>, keep: bool, line: CartLine)
    ensures line in LinesBySelection(lines, selection, keep) <==> line in lines && (line.id in selection) == keep
  {
    if lines != [] {
      LinesBySelectionMember(lines[1..], selection, keep, line);
      assert line in lines <==> line == lines[0] || line in lines[1..];
    }
  }

  /** `itemsToCheckout`: the cart lines whose id is selected; a cart or a
      selection that is not an array counts as empty. */
  function ItemsToCheckout(cartItems: Option<seq<CartLine>>, selectedItems: Option<seq<Id>>): (r: seq<CartLine>)
    ensures cartItems.None? || selectedItems.None? ==> r == []
    ensures forall line :: line in r <==>
              cartItems.Some? && selectedItems.Some? &&
              line in cartItems.value && line.id in selectedItems.value
  {
    if cartItems.Some? && selectedItems.Some? then
      assert forall line :: line in LinesBySelection(cartItems.value, selectedItems.value, true) <==>
                            line in cartItems.value && line.id in selectedItems.value by {
        forall line {
          LinesBySelectionMember(cartItems.value, selectedItems.value, true, line);
        }
      }
      LinesBySelection(cartItems.value, selectedItems.value, true)
    else
      []
  }

  /** The checkout page shows exactly the cart rows whose checkbox is ticked. */
  lemma CheckedOutRowsAreTicked(cartItems: seq<CartLine>, selectedItems: seq<Id>, line: CartLine)
    ensures line in ItemsToCheckout(Some(cartItems), Some(selectedItems)) <==>
            line in cartItems && CartItem.IsSelected(selectedItems, line)
  {
  }

  /** Selecting distributes over concatenation, so the lines keep the
      order they have in the cart. */
  lemma {:induction false} LinesBySelectionAppend(a: seq<CartLine>, b: seq<CartLine>, selection: seq<Id>, keep: bool)
    ensures LinesBySelection(a + b, selection, keep) ==
            LinesBySelection(a, selection, keep) + LinesBySelection(b, selection, keep)
  {
    if a == [] {
      assert a + b == b;
    } else {
      assert (a + b)[0] == a[0] && (a + b)[1..] == a[1..] + b;
      LinesBySelectionAppend(a[1..], b, selection, keep);
    }
  }

  /** The lines checked out and the lines left in the cart split the cart:
      together they are the whole cart, each line exactly as often as before. */
  lemma {:induction false} SelectionSplitsCart(lines: seq<CartLine>, selection: seq<Id>)
    ensures multiset(LinesBySelection(lines, selection, true)) +
            multiset(LinesBySelection(lines, selection, false)) == multiset(lines)
  {
    if lines != [] {
      SelectionSplitsCart(lines[1..], selection);
      assert lines == [lines[0]] + lines[1..];
    }
  }

  // ---------------------------------------------------------------------
  // Totals

  /** `subtotal` / `total`: the subtotal comes from the cart context (a
      missing or zero value reads as 0) and the flat fee is added. */
  function OrderTotal(selectedSubtotal: Option<real>): (r: real)
    ensures r - ShippingFee == RealOrZero(selectedSubtotal)
    ensures selectedSubtotal.None? ==> r == 50.0
    ensures 0.0 <= RealOrZero(selectedSubtotal) ==> r >= ShippingFee
  {
    RealOrZero(selectedSubtotal) + ShippingFee
  }

  // ---------------------------------------------------------------------
  // Stock check and stock update, one product at a time

  /** `itemsToCheckout.find(item => item.id === prod.id)`: the first line
      for the product, if any. */
  function FindLine(items: seq<CartLine>, id: Id): (r: Option<CartLine>)
    ensures r.Some? ==> r.value in items && r.value.id == id
  {
    if items == [] then None
    else if items[0].id == id then Some(items[0])
    else FindLine(items[1..], id)
  }

  /** `find` gives nothing exactly when no line has the id, and otherwise
      the first line that has it. */
  lemma {:induction false} FindLineIsFirst(items: seq<CartLine>, id: Id)
    ensures FindLine(items, id).None? <==> forall k :: 0 <= k < |items| ==> items[k].id != id
    ensures FindLine(items, id).Some? ==>
              exists k :: 0 <= k < |items| && items[k] == FindLine(items, id).value &&
                          forall j :: 0 <= j < k ==> items[j].id != id
  {
    if items != [] && items[0].id != id {
      FindLineIsFirst(items[1..], id);
      assert forall k :: 1 <= k < |items| ==> items[k] == items[1..][k - 1];
      if FindLine(items, id).Some? {
        var k :| 0 <= k < |items[1..]| && items[1..][k] == FindLine(items, id).value &&
                 forall j :: 0 <= j < k ==> items[1..][j].id != id;
        assert items[k + 1] == FindLine(items, id).value;
      }
    }
  }

  /** A product is short when a line orders more of it than its stock;
      a product no line orders is never short. */
  predicate IsShort(prod: Product, items: seq<CartLine>): (r: bool)
    ensures r ==> exists k :: 0 <= k < |items| && items[k].id == prod.id &&
                             OrZero(items[k].quantity) > OrZero(prod.stock)
    ensures (forall k :: 0 <= k < |items| ==> items[k].id != prod.id) ==> !r
  {
    match FindLine(items, prod.id)
    case None => false
    case Some(line) => OrZero(line.quantity) > OrZero(prod.stock)
  }

  /** The product as `products.map` returns it: an ordered product gets
      its stock lowered by the ordered quantity, floored at 0. */
  function UpdateProduct(prod: Product, items: seq<CartLine>): (r: Product)
    ensures r.id == prod.id && r.name == prod.name
    ensures FindLine(items, prod.id).None? ==> r == prod
    ensures FindLine(items, prod.id).Some? ==>
              var ordered := OrZero(FindLine(items, prod.id).value.quantity);
              r.stock.Some? && r.stock.value >= 0 &&
              r.stock.value >= OrZero(prod.stock) - ordered &&
              (r.stock.value > 0 ==> r.stock.value == OrZero(prod.stock) - ordered)
  {
    match FindLine(items, prod.id)
    case None => prod
    case Some(line) =>
      var left := OrZero(prod.stock) - OrZero(line.quantity);
      prod.(stock := Some(if left > 0 then left else 0))
  }

  /** The first n products as `products.map` returns them. */
  function UpdatedUpTo(products: seq<Product>, items: seq<CartLine>, n: nat): (r: seq<Product>)
    requires n <= |products|
    ensures |r| == n
  {
    if n == 0 then [] else UpdatedUpTo(products, items, n - 1) + [UpdateProduct(products[n - 1], items)]
  }

  /** `updatedProducts`. */
  function UpdatedProducts(products: seq<Product>, items: seq<CartLine>): (r: seq<Product>)
    ensures |r| == |products|
  {
    UpdatedUpTo(products, items, |products|)
  }

  /** `map` updates each product in its own place. */
  lemma {:induction false} UpdatedUpToAt(products: seq<Product>, items: seq<CartLine>, n: nat, k: nat)
    requires k < n <= |products|
    ensures UpdatedUpTo(products, items, n)[k] == UpdateProduct(products[k], items)
  {
    if k < n - 1 {
      UpdatedUpToAt(products, items, n - 1, k);
    }
  }

  /** The warning `products.map` raises for one product: one when it is
      short, none otherwise. */
  function Warning(prod: Product, items: seq<CartLine>): (r: seq<Alert>)
    ensures |r| <= 1
    ensures |r| == 1 <==> IsShort(prod, items)
    ensures |r| == 1 ==> r[0] == NotEnoughStock(prod.name, OrZero(prod.stock))
  {
    if IsShort(prod, items) then [NotEnoughStock(prod.name, OrZero(prod.stock))] else []
  }

  /** The warnings raised while walking the first n products, in product
      order. */
  function AlertsUpTo(products: seq<Product>, items: seq<CartLine>, n: nat): (r: seq<Alert>)
    requires n <= |products|
    ensures |r| <= n
  {
    if n == 0 then [] else AlertsUpTo(products, items, n - 1) + Warning(products[n - 1], items)
  }

  /** The stock warnings raised while walking all of `products`. */
  function ShortageAlerts(products: seq<Product>, items: seq<CartLine>): (r: seq<Alert>)
    ensures |r| <= |products|
  {
    AlertsUpTo(products, items, |products|)
  }

  /** Every warning is about a product whose ordered quantity exceeds its
      stock, and gives that stock. */
  lemma {:induction false} AlertsComeFromShortProducts(products: seq<Product>, items: seq<CartLine>, n: nat, a: Alert)
    requires n <= |products| && a in AlertsUpTo(products, items, n)
    ensures exists k :: 0 <= k < n && IsShort(products[k], items) &&
                        a == NotEnoughStock(products[k].name, OrZero(products[k].stock))
  {
    if a in AlertsUpTo(products, items, n - 1) {
      AlertsComeFromShortProducts(products, items, n - 1, a);
    } else {
      assert a in Warning(products[n - 1], items);
    }
  }

  /** The commit may go ahead exactly when no ordered product is short. */
  lemma NoAlertsIffSufficient(products: seq<Product>, items: seq<CartLine>, n: nat)
    requires n <= |products|
    ensures AlertsUpTo(products, items, n) == [] <==>
            forall k :: 0 <= k < n ==> !IsShort(products[k], items)
  {
    if AlertsUpTo(products, items, n) == [] {
      forall k | 0 <= k < n && IsShort(products[k], items)
        ensures false
      {
        EveryShortageReported(products, items, n, k);
      }
    } else {
      AlertsComeFromShortProducts(products, items, n, AlertsUpTo(products, items, n)[0]);
    }
  }

  /** Every short product is reported, not only the first one. */
  lemma {:induction false} EveryShortageReported(products: seq<Product>, items: seq<CartLine>, n: nat, k: nat)
    requires k < n <= |products| && IsShort(products[k], items)
    ensures NotEnoughStock(products[k].name, OrZero(products[k].stock)) in AlertsUpTo(products, items, n)
  {
    if k < n - 1 {
      EveryShortageReported(products, items, n - 1, k);
    }
  }

  /** The positions, among the first n, of the short products. */
  function ShortPositions(products: seq<Product>, items: seq<CartLine>, n: nat): (r: set<nat>)
    requires n <= |products|
    ensures forall k :: k in r ==> k < n
  {
    if n == 0 then {}
    else ShortPositions(products, items, n - 1) + (if IsShort(products[n - 1], items) then {n - 1} else {})
  }

  /** A position is collected exactly when its product is short. */
  lemma {:induction false} ShortPositionsMember(products: seq<Product>, items: seq<CartLine>, n: nat, k: nat)
    requires n <= |products|
    ensures k in ShortPositions(products, items, n) <==> k < n && IsShort(products[k], items)
  {
    if n > 0 {
      ShortPositionsMember(products, items, n - 1, k);
    }
  }

  /** Exactly one warning per short product: walking the first n products
      raises as many warnings as there are short products among them. */
  lemma {:induction false} ShortageCount(products: seq<Product>, items: seq<CartLine>, n: nat)
    requires n <= |products|
    ensures |AlertsUpTo(products, items, n)| == |ShortPositions(products, items, n)|
  {
    if n > 0 {
      ShortageCount(products, items, n - 1);
      var before := ShortPositions(products, items, n - 1);
      assert n - 1 !in before;
      if IsShort(products[n - 1], items) {
        assert |before + {n - 1}| == |before| + 1;
      }
    }
  }

  /** The product list after a commit that passed the stock check: same
      length, ids and names in the same order; every ordered product's
      stock drops by exactly the ordered quantity and stays non-negative;
      every other product is untouched. */
  lemma CommittedStock(products: seq<Product>, items: seq<CartLine>, k: nat)
    requires ShortageAlerts(products, items) == []
    requires k < |products|
    ensures |UpdatedProducts(products, items)| == |products|
    ensures UpdatedProducts(products, items)[k].id == products[k].id
    ensures UpdatedProducts(products, items)[k].name == products[k].name
    ensures FindLine(items, products[k].id).None? ==> UpdatedProducts(products, items)[k] == products[k]
    ensures FindLine(items, products[k].id).Some? ==>
              var ordered := OrZero(FindLine(items, products[k].id).value.quantity);
              UpdatedProducts(products, items)[k].stock == Some(OrZero(products[k].stock) - ordered) &&
              OrZero(products[k].stock) - ordered >= 0
  {
    if IsShort(products[k], items) {
      EveryShortageReported(products, items, |products|, k);
    }
    UpdatedUpToAt(products, items, |products|, k);
    UpdateWithinStock(products[k], items);
  }

  /** A product that passed the check loses exactly the ordered quantity. */
  lemma UpdateWithinStock(prod: Product, items: seq<CartLine>)
    requires !IsShort(prod, items)
    ensures UpdateProduct(prod, items).id == prod.id && UpdateProduct(prod, items).name == prod.name
    ensures FindLine(items, prod.id).None? ==> UpdateProduct(prod, items) == prod
    ensures FindLine(items, prod.id).Some? ==>
              var ordered := OrZero(FindLine(items, prod.id).value.quantity);
              UpdateProduct(prod, items).stock == Some(OrZero(prod.stock) - ordered) &&
              OrZero(prod.stock) - ordered >= 0
  {
  }

  /** A cart none of whose selected lines matches a product raises no
      warning and changes no product. */
  lemma UnmatchedLinesPass(products: seq<Product>, items: seq<CartLine>)
    requires forall k, j :: 0 <= k < |products| && 0 <= j < |items| ==> items[j].id != products[k].id
    ensures ShortageAlerts(products, items) == []
    ensures UpdatedProducts(products, items) == products
  {
    NoAlertsIffSufficient(products, items, |products|);
    forall k | 0 <= k < |products|
      ensures UpdatedProducts(products, items)[k] == products[k]
    {
      UpdatedUpToAt(products, items, |products|, k);
    }
  }

  /** `find` for another id looks past a line as if it were not there. */
  lemma {:induction false} FindLineSkips(a: seq<CartLine>, b: seq<CartLine>, line: CartLine, id: Id)
    requires line.id != id
    ensures FindLine(a + [line] + b, id) == FindLine(a + b, id)
  {
    if a == [] {
      assert a + [line] + b == [line] + b && ([line] + b)[1..] == b && a + b == b;
    } else {
      assert (a + [line] + b)[0] == a[0] && (a + b)[0] == a[0];
      assert (a + [line] + b)[1..] == a[1..] + [line] + b && (a + b)[1..] == a[1..] + b;
      FindLineSkips(a[1..], b, line, id);
    }
  }

  /** A selected line whose id matches no product, anywhere among the
      selected lines, changes neither the warnings nor the updated catalog. */
  lemma {:induction false} UnmatchedLineIgnored(products: seq<Product>, a: seq<CartLine>, b: seq<CartLine>,
                                                line: CartLine, n: nat)
    requires n <= |products|
    requires forall k :: 0 <= k < |products| ==> products[k].id != line.id
    ensures AlertsUpTo(products, a + [line] + b, n) == AlertsUpTo(products, a + b, n)
    ensures UpdatedUpTo(products, a + [line] + b, n) == UpdatedUpTo(products, a + b, n)
  {
    if n > 0 {
      UnmatchedLineIgnored(products, a, b, line, n - 1);
      FindLineSkips(a, b, line, products[n - 1].id);
      assert Warning(products[n - 1], a + [line] + b) == Warning(products[n - 1], a + b);
      assert UpdateProduct(products[n - 1], a + [line] + b) == UpdateProduct(products[n - 1], a + b);
    }
  }

  /** An order of 5 against a stock of 3 blocks the whole order, and the
      other product (10 in stock, 2 ordered) is reported as fine. */
  lemma ShortOrderExample()
    ensures var products := [Product(1, "A", Some(3)), Product(2, "B", Some(10))];
            var items := [CartLine(1, "A", Some(100.0), None, Some(5), Some(3)),
                          CartLine(2, "B", Some(20.0), None, Some(2), Some(10))];
            ShortageAlerts(products, items) == [NotEnoughStock("A", 3)]
  {
    var products := [Product(1, "A", Some(3)), Product(2, "B", Some(10))];
    var items := [CartLine(1, "A", Some(100.0), None, Some(5), Some(3)),
                  CartLine(2, "B", Some(20.0), None, Some(2), Some(10))];
    assert IsShort(products[0], items) && !IsShort(products[1], items);
  }

  /** Ten in stock and two ordered leave eight, and a subtotal of 200
      makes a total of 250. */
  lemma PlacedOrderExample()
    ensures var products := [Product(1, "A", Some(10))];
            var items := [CartLine(1, "A", Some(100.0), Some(0.0), Some(2), Some(10))];
            ShortageAlerts(products, items) == [] &&
            UpdatedProducts(products, items) == [Product(1, "A", Some(8))] &&
            OrderTotal(Some(200.0)) == 250.0
  {
    var products := [Product(1, "A", Some(10))];
    var items := [CartLine(1, "A", Some(100.0), Some(0.0), Some(2), Some(10))];
    assert !IsShort(products[0], items);
    NoAlertsIffSufficient(products, items, |products|);
  }

  // ---------------------------------------------------------------------
  // The page

  /** The checkout page with the application and cart-context state it
      reads and writes. */
  class CheckoutPage {
    /** The catalog as held by the application (`products` prop). */
    var products: seq<Product>
    /** The value stored under the `products` key of local storage. */
    var storedProducts: Option<seq<Product>>
    /** The cart context's `cartItems` and `selectedItems`; None when the
        value is not an array. */
    var cartItems: Option<seq<CartLine>>
    var selectedItems: Option<seq<Id>>
    /** The cart context's `selectedSubtotal`, as the handler read it. The
        context derives it from the cart; the model does not recompute it
        after `removeSelectedItems`. */
    var selectedSubtotal: Option<real>
    /** Whether the `setProducts` and `showAlert` props were passed. */
    const canSetProducts: bool
    const canShowAlert: bool

    var paymentMethod: PaymentMethod
    var orderPlaced: bool
    var orderDetails: Option<Order>
    var showConfirmOrderModal: bool
    /** The alerts raised so far, oldest first. */
    var alerts: seq<Alert>

    /** The receipt, once there is one, is consistent with the totals. */
    ghost predicate Valid()
      reads this
    {
      orderPlaced == orderDetails.Some? &&
      (orderDetails.Some? ==>
         orderDetails.value.items != [] &&
         orderDetails.value.shipping == ShippingFee &&
         orderDetails.value.total == orderDetails.value.subtotal + ShippingFee)
    }

    constructor (products: seq<Product>, storedProducts: Option<seq<Product>>,
                 cartItems: Option<seq<CartLine>>, selectedItems: Option<seq<Id>>,
                 selectedSubtotal: Option<real>, canSetProducts: bool, canShowAlert: bool)
      ensures Valid()
      ensures this.products == products && this.storedProducts == storedProducts
      ensures this.cartItems == cartItems && this.selectedItems == selectedItems
      ensures this.selectedSubtotal == selectedSubtotal
      ensures this.canSetProducts == canSetProducts && this.canShowAlert == canShowAlert
      ensures paymentMethod == Card && !orderPlaced && orderDetails == None
      ensures !showConfirmOrderModal && alerts == []
    {
      this.products := products;
      this.storedProducts := storedProducts;
      this.cartItems := cartItems;
      this.selectedItems := selectedItems;
      this.selectedSubtotal := selectedSubtotal;
      this.canSetProducts := canSetProducts;
      this.canShowAlert := canShowAlert;
      paymentMethod := Card;
      orderPlaced := false;
      orderDetails := None;
      showConfirmOrderModal := false;
      alerts := [];
    }

    /** The lines the page would check out now. */
    function Items(): (r: seq<CartLine>)
      reads this
      ensures r != [] ==> cartItems.Some? && selectedItems.Some? && |r| <= |cartItems.value|
    {
      ItemsToCheckout(cartItems, selectedItems)
    }

    /** Something is selected and every ordered product has the stock. */
    predicate Committable()
      reads this
    {
      Items() != [] && ShortageAlerts(products, Items()) == []
    }

    /** What the shopper sees of a sequence of `showAlert` calls. */
    function Shown(raised: seq<Alert>): seq<Alert>
    {
      if canShowAlert then raised else []
    }

    /** Raising a then b shows what raising a + b at once would show. */
    lemma ShownAppend(base: seq<Alert>, a: seq<Alert>, b: seq<Alert>)
      ensures base + Shown(a) + Shown(b) == base + Shown(a + b)
    {
    }

    method ShowAlert(a: Alert)
      modifies this`alerts
      ensures alerts == old(alerts) + Shown([a])
    {
      if canShowAlert {
        alerts := alerts + [a];
      }
    }

    /** The payment radio buttons (`setPaymentMethod`). */
    method ChoosePaymentMethod(m: PaymentMethod)
      modifies this`paymentMethod
      ensures paymentMethod == m
    {
      paymentMethod := m;
    }

    /** `handleShowConfirmOrderModal`. */
    method ShowConfirmOrderModal()
      modifies this`showConfirmOrderModal
      ensures showConfirmOrderModal
    {
      showConfirmOrderModal := true;
    }

    /** `handleCloseConfirmOrderModal`. */
    method CloseConfirmOrderModal()
      modifies this`showConfirmOrderModal
      ensures !showConfirmOrderModal
    {
      showConfirmOrderModal := false;
    }

    /** The callback given to `products.map`: the product with its stock
        lowered by the ordered quantity (floored at 0), and a warning if
        the order asks for more than the stock. */
    method CheckProduct(prod: Product, itemsToCheckout: seq<CartLine>) returns (next: Product, short: bool)
      modifies this`alerts
      ensures next == UpdateProduct(prod, itemsToCheckout)
      ensures short == IsShort(prod, itemsToCheckout)
      ensures alerts == old(alerts) + Shown(Warning(prod, itemsToCheckout))
    {
      next, short := prod, false;
      var ordered := FindLine(itemsToCheckout, prod.id);
      if ordered.Some? {
        var availableStock := OrZero(prod.stock);
        var orderedQty := OrZero(ordered.value.quantity);
        if orderedQty > availableStock {
          short := true;
          ShowAlert(NotEnoughStock(prod.name, availableStock));
        }
        var left := availableStock - orderedQty;
        next := prod.(stock := Some(if left > 0 then left else 0));
      }
    }

    /** The walk over `products` inside `handleConfirmOrderPlacement`: the
        updated product list, whether every ordered product has enough
        stock, and one warning per short product. */
    method CheckStock(itemsToCheckout: seq<CartLine>) returns (updatedProducts: seq<Product>, stockSufficient: bool)
      modifies this`alerts
      ensures updatedProducts == UpdatedProducts(products, itemsToCheckout)
      ensures stockSufficient <==> ShortageAlerts(products, itemsToCheckout) == []
      ensures alerts == old(alerts) + Shown(ShortageAlerts(products, itemsToCheckout))
    {
      var ps := products;
      stockSufficient := true;
      updatedProducts := [];
      var i := 0;
      while i < |ps|
        invariant 0 <= i <= |ps|
        invariant updatedProducts == UpdatedUpTo(ps, itemsToCheckout, i)
        invariant stockSufficient <==> AlertsUpTo(ps, itemsToCheckout, i) == []
        invariant alerts == old(alerts) + Shown(AlertsUpTo(ps, itemsToCheckout, i))
      {
        var next, short := CheckProduct(ps[i], itemsToCheckout);
        ShownAppend(old(alerts), AlertsUpTo(ps, itemsToCheckout, i), Warning(ps[i], itemsToCheckout));
        assert AlertsUpTo(ps, itemsToCheckout, i + 1) == AlertsUpTo(ps, itemsToCheckout, i) + Warning(ps[i], itemsToCheckout);
        stockSufficient := stockSufficient && !short;
        updatedProducts := updatedProducts + [next];
        i := i + 1;
      }
    }

    /** The all-or-nothing write of a successful `handleConfirmOrderPlacement`:
        the new catalog, the receipt, and `removeSelectedItems`. */
    method Commit(itemsToCheckout: seq<CartLine>, updatedProducts: seq<Product>, subtotal: real, total: real)
      requires cartItems.Some? && selectedItems.Some?
      requires itemsToCheckout != [] && total == subtotal + ShippingFee
      modifies this
      ensures alerts == old(alerts) + Shown([OrderPlaced])
      ensures storedProducts == Some(updatedProducts)
      ensures products == (if canSetProducts then updatedProducts else old(products))
      ensures cartItems == Some(LinesBySelection(old(cartItems).value, old(selectedItems).value, false))
      ensures selectedItems == Some([])
      ensures orderPlaced && !showConfirmOrderModal
      ensures orderDetails == Some(Order(itemsToCheckout, subtotal, ShippingFee, total, old(paymentMethod)))
      ensures selectedSubtotal == old(selectedSubtotal) && paymentMethod == old(paymentMethod)
      ensures Valid()
    {
      if canSetProducts {
        products := updatedProducts;
      }
      storedProducts := Some(updatedProducts);
      orderDetails := Some(Order(itemsToCheckout, subtotal, ShippingFee, total, paymentMethod));
      ShowAlert(OrderPlaced);
      // `removeSelectedItems` of the cart context.
      cartItems := Some(LinesBySelection(cartItems.value, selectedItems.value, false));
      selectedItems := Some([]);
      orderPlaced := true;
      CloseConfirmOrderModal();
    }

    /** `handleConfirmOrderPlacement`: refuse an empty selection; otherwise
        walk the catalog, warn about every short product, and commit the
        whole order only if none is short. */
    method ConfirmOrder()
      requires Valid()
      modifies this
      ensures Valid()
      // Nothing selected: a warning and no other change.
      ensures old(Items()) == [] ==>
                alerts == old(alerts) + Shown([NothingToCheckout]) &&
                products == old(products) && storedProducts == old(storedProducts) &&
                cartItems == old(cartItems) && selectedItems == old(selectedItems) &&
                orderPlaced == old(orderPlaced) && orderDetails == old(orderDetails) &&
                showConfirmOrderModal == old(showConfirmOrderModal)
      // Some product short: one warning per short product, nothing written.
      ensures old(Items()) != [] && !old(Committable()) ==>
                alerts == old(alerts) + Shown(ShortageAlerts(old(products), old(Items()))) &&
                products == old(products) && storedProducts == old(storedProducts) &&
                cartItems == old(cartItems) && selectedItems == old(selectedItems) &&
                orderPlaced == old(orderPlaced) && orderDetails == old(orderDetails) &&
                !showConfirmOrderModal
      // Stock sufficient: the whole order is applied.
      ensures old(Committable()) ==> alerts == old(alerts) + Shown([OrderPlaced])
      ensures old(Committable()) ==>
                storedProducts == Some(UpdatedProducts(old(products), old(Items()))) &&
                products == (if canSetProducts then UpdatedProducts(old(products), old(Items()))
                             else old(products))
      ensures old(Committable()) ==>
                old(cartItems).Some? && old(selectedItems).Some? &&
                cartItems == Some(LinesBySelection(old(cartItems).value, old(selectedItems).value, false)) &&
                selectedItems == Some([])
      ensures old(Committable()) ==>
                orderPlaced && !showConfirmOrderModal &&
                orderDetails == Some(Order(old(Items()), RealOrZero(old(selectedSubtotal)), ShippingFee,
                                           OrderTotal(old(selectedSubtotal)), old(paymentMethod)))
      ensures selectedSubtotal == old(selectedSubtotal) && paymentMethod == old(paymentMethod)
    {
      var itemsToCheckout := Items();
      var subtotal := RealOrZero(selectedSubtotal);
      var total := OrderTotal(selectedSubtotal);
      if itemsToCheckout == [] {
        ShowAlert(NothingToCheckout);
        return;
      }

      assert itemsToCheckout[0] in itemsToCheckout;
      assert cartItems.Some? && selectedItems.Some?;
      var updatedProducts, stockSufficient := CheckStock(itemsToCheckout);
      if !stockSufficient {
        CloseConfirmOrderModal();
        return;
      }

      Commit(itemsToCheckout, updatedProducts, subtotal, total);
    }
  }
}
