/**
 * The session cart (menu_app/utils/cart.py and the session as
 * menu_app/views.py uses it): for each booking, the products picked for it
 * with their quantities, and the items and total computed from it.
 */
module Cart {
  import opened Wrappers
  import opened Catalog

  /** One `cart[booking][product] = {'quantity': n}` entry. */
  datatype CartEntry = CartEntry(product: int, quantity: int)

  /** One item of the computed cart: the product as stored, the quantity and price × quantity. */
  datatype CartItem = CartItem(product: Product, quantity: int, subtotal: int)

  /** No product appears twice among a booking's entries: they are the keys of a dictionary. */
  predicate UniqueProducts(entries: seq<CartEntry>)
  {
    forall i, j :: 0 <= i < j < |entries| ==> entries[i].product != entries[j].product
  }

  /**
   * The visitor's session: `cart` maps a booking id to its entries in
   * insertion order, and `booking_selected_id` is the booking the menu adds
   * to.
   */
  class Session {
    var cart: map<int, seq<CartEntry>>
    var selectedBooking: Option<int>

    ghost predicate Valid()
      reads this
    {
      forall b :: b in cart ==> UniqueProducts(cart[b])
    }

    constructor ()
      ensures Valid() && cart == map[] && selectedBooking.None?
    {
      cart := map[];
      selectedBooking := None;
    }
  }

  /** The items for the entries whose product still exists, in order; the others are skipped. */
  function ResolvedItems(entries: seq<CartEntry>, products: map<int, Product>): (items: seq<CartItem>)
    ensures |items| <= |entries|
    ensures forall it :: it in items ==>
      (exists e :: e in entries && e.product in products && it == CartItem(products[e.product], e.quantity, products[e.product].price * e.quantity))
  {
    if entries == [] then []
    else
      var e := entries[0];
      var rest := ResolvedItems(entries[1..], products);
      assert forall x :: x in entries[1..] ==> x in entries;
      if e.product in products
      then [CartItem(products[e.product], e.quantity, products[e.product].price * e.quantity)] + rest
      else rest
  }

  function SumSubtotals(items: seq<CartItem>): int
  {
    if items == [] then 0 else items[0].subtotal + SumSubtotals(items[1..])
  }

  /** An entry whose product no longer exists adds nothing, wherever it sits. */
  lemma UnknownProductSkipped(before: seq<CartEntry>, e: CartEntry, after: seq<CartEntry>, products: map<int, Product>)
    requires e.product !in products
    ensures ResolvedItems(before + [e] + after, products) == ResolvedItems(before + after, products)
  {
    if before != [] {
      assert (before + [e] + after)[1..] == before[1..] + [e] + after;
      assert (before + after)[1..] == before[1..] + after;
      UnknownProductSkipped(before[1..], e, after, products);
    } else {
      assert before + [e] + after == [e] + after;
      assert ([e] + after)[1..] == after;
      assert before + after == after;
    }
  }

  /** With every product known there is one item per entry, at the base price. */
  lemma {:induction false} AllKnownOneItemEach(entries: seq<CartEntry>, products: map<int, Product>)
    requires forall e :: e in entries ==> e.product in products
    ensures var items := ResolvedItems(entries, products);
      |items| == |entries| &&
      forall i :: 0 <= i < |entries| ==>
        items[i] == CartItem(products[entries[i].product], entries[i].quantity, products[entries[i].product].price * entries[i].quantity)
  {
    if entries != [] {
      assert forall x :: x in entries[1..] ==> x in entries;
      AllKnownOneItemEach(entries[1..], products);
      assert entries[0] in entries;
    }
  }

  lemma {:induction false} SumSubtotalsAppend(a: seq<CartItem>, b: seq<CartItem>)
    ensures SumSubtotals(a + b) == SumSubtotals(a) + SumSubtotals(b)
  {
    if a != [] {
      assert (a + b)[1..] == a[1..] + b;
      SumSubtotalsAppend(a[1..], b);
    } else {
      assert a + b == b;
    }
  }

  /**
   * `get_cart_items_and_total`: the items of the booking's entries whose
   * product exists, and the sum of their subtotals. A missing cart or a
   * booking without entries gives no items and a total of 0. The session
   * is only read.
   */
  method GetCartItemsAndTotal(session: Session, booking: int, products: map<int, Product>)
    returns (items: seq<CartItem>, total: int)
    ensures booking !in session.cart ==> items == [] && total == 0
    ensures booking in session.cart ==> items == ResolvedItems(session.cart[booking], products)
    ensures total == SumSubtotals(items)
  {
    var entries := if booking in session.cart then session.cart[booking] else [];
    items := [];
    total := 0;
    var i := 0;
    while i < |entries|
      invariant 0 <= i <= |entries|
      invariant items == ResolvedItems(entries[..i], products)
      invariant total == SumSubtotals(items)
    {
      var e := entries[i];
      ResolvedAppend(entries[..i], e, products);
      assert entries[..i + 1] == entries[..i] + [e];
      if e.product in products {
        var p := products[e.product];
        var subtotal := p.price * e.quantity;
        SumSubtotalsAppend(items, [CartItem(p, e.quantity, subtotal)]);
        total := total + subtotal;
        items := items + [CartItem(p, e.quantity, subtotal)];
      }
      i := i + 1;
    }
    assert entries[..i] == entries;
  }

  lemma {:induction false} ResolvedAppend(entries: seq<CartEntry>, e: CartEntry, products: map<int, Product>)
    ensures ResolvedItems(entries + [e], products) ==
      ResolvedItems(entries, products) + (if e.product in products then [CartItem(products[e.product], e.quantity, products[e.product].price * e.quantity)] else [])
  {
    if entries != [] {
      assert (entries + [e])[1..] == entries[1..] + [e];
      ResolvedAppend(entries[1..], e, products);
    } else {
      assert [e][1..] == [];
    }
  }

  // ---------------------------------------------------------------------
  // Adding to the cart
  // ---------------------------------------------------------------------

  /** The quantity of a product among the entries; 0 when it has none. */
  function QuantityOf(entries: seq<CartEntry>, product: int): int
  {
    if entries == [] then 0
    else if entries[0].product == product then entries[0].quantity
    else QuantityOf(entries[1..], product)
  }

  /** The products that have an entry: the keys of the booking's dictionary. */
  function ProductsOf(entries: seq<CartEntry>): set<int>
  {
    set e | e in entries :: e.product
  }

  /** An entry for a product not yet present keeps the products unique. */
  lemma ConsUnique(x: CartEntry, rest: seq<CartEntry>)
    requires UniqueProducts(rest) && x.product !in ProductsOf(rest)
    ensures UniqueProducts([x] + rest)
  {
    var r := [x] + rest;
    forall i, j | 0 <= i < j < |r| ensures r[i].product != r[j].product {
      if i == 0 { assert r[j] in rest; } else { assert r[i] == rest[i - 1] && r[j] == rest[j - 1]; }
    }
  }

  /**
   * One more of a product: an existing entry's quantity goes up by 1, with
   * no ceiling; a new product is appended with quantity 1.
   */
  function AddOneOf(entries: seq<CartEntry>, product: int): (r: seq<CartEntry>)
    requires UniqueProducts(entries)
    ensures UniqueProducts(r)
    ensures ProductsOf(r) == ProductsOf(entries) + {product}
  {
    if entries == [] then [CartEntry(product, 1)]
    else
      var head := entries[0];
      var tail := entries[1..];
      UnconsUnique(entries);
      if head.product == product then
        var bumped := head.(quantity := head.quantity + 1);
        ConsUnique(bumped, tail);
        ProductsOfCons(bumped, tail);
        [bumped] + tail
      else
        var rest := AddOneOf(tail, product);
        ConsUnique(head, rest);
        ProductsOfCons(head, rest);
        [head] + rest
  }

  /** The first entry's product has no other entry. */
  lemma UnconsUnique(entries: seq<CartEntry>)
    requires UniqueProducts(entries) && entries != []
    ensures UniqueProducts(entries[1..]) && entries[0].product !in ProductsOf(entries[1..])
    ensures ProductsOf(entries) == {entries[0].product} + ProductsOf(entries[1..])
  {
    var tail := entries[1..];
    assert entries == [entries[0]] + tail;
  }

  lemma ProductsOfCons(x: CartEntry, rest: seq<CartEntry>)
    ensures ProductsOf([x] + rest) == {x.product} + ProductsOf(rest)
  {
    assert forall e :: e in [x] + rest <==> e == x || e in rest;
  }

  /** Adding one of a product raises its quantity by 1 and leaves every other product's quantity as it was. */
  lemma {:induction false} AddOneOfQuantities(entries: seq<CartEntry>, product: int)
    requires UniqueProducts(entries)
    ensures QuantityOf(AddOneOf(entries, product), product) == QuantityOf(entries, product) + 1
    ensures forall q :: q != product ==> QuantityOf(AddOneOf(entries, product), q) == QuantityOf(entries, q)
  {
    if entries != [] {
      var tail := entries[1..];
      assert UniqueProducts(tail);
      if entries[0].product != product {
        AddOneOfQuantities(tail, product);
        assert AddOneOf(entries, product)[1..] == AddOneOf(tail, product);
      } else {
        assert AddOneOf(entries, product)[1..] == tail;
      }
    }
  }

  lemma {:induction false} NotPresentQuantity(entries: seq<CartEntry>, product: int)
    requires product !in ProductsOf(entries)
    ensures QuantityOf(entries, product) == 0
  {
    if entries != [] {
      assert entries[0] in entries;
      assert forall e :: e in entries[1..] ==> e in entries;
      NotPresentQuantity(entries[1..], product);
    }
  }
}
