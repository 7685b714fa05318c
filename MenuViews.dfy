/**
 * The menu's views (menu_app/views.py): adding a product to the selected
 * booking's cart, editing the lines of an order still in preparation, the
 * menu grouped by category and the upcoming bookings a visitor can order
 * for.
 *
 * A view that does not find its object (`get_object_or_404`) changes
 * nothing and reports it; the HTTP responses and messages are not
 * modelled.
 */
module MenuViews {
  import opened Wrappers
  import opened Queries
  import opened Bookings
  import opened Catalog
  import opened Orders
  import opened Cart

  // ---------------------------------------------------------------------
  // Adding to the cart
  // ---------------------------------------------------------------------

  datatype AddOutcome = ProductNotFound | NoBookingSelected | Added

  /**
   * `AddToOrderView.post`: an unknown product is not found; with no booking
   * selected (None or id 0) the cart is left as it is; otherwise the
   * booking's entries get one more of the product, a missing booking
   * starting from no entries.
   */
  method AddToOrder(session: Session, product: int, products: set<int>) returns (outcome: AddOutcome)
    requires session.Valid()
    modifies session
    ensures session.Valid() && session.selectedBooking == old(session.selectedBooking)
    ensures product !in products ==> outcome == ProductNotFound
    ensures product in products && (old(session.selectedBooking).None? || old(session.selectedBooking).value == 0) ==>
      outcome == NoBookingSelected
    ensures outcome != Added ==> session.cart == old(session.cart)
    ensures outcome == Added <==> product in products && old(session.selectedBooking).Some? && old(session.selectedBooking).value != 0
    ensures outcome == Added ==>
      var b := old(session.selectedBooking).value;
      var before := if b in old(session.cart) then old(session.cart)[b] else [];
      session.cart == old(session.cart)[b := AddOneOf(before, product)]
  {
    if product !in products {
      return ProductNotFound;
    }
    if session.selectedBooking.None? || session.selectedBooking.value == 0 {
      return NoBookingSelected;
    }
    var b := session.selectedBooking.value;
    var entries := if b in session.cart then session.cart[b] else [];
    session.cart := session.cart[b := AddOneOf(entries, product)];
    outcome := Added;
  }

  /** Adding a product twice gives it a quantity two higher; every other product and booking is untouched. */
  lemma AddTwice(entries: seq<CartEntry>, product: int, other: int)
    requires UniqueProducts(entries) && other != product
    ensures QuantityOf(AddOneOf(AddOneOf(entries, product), product), product) == QuantityOf(entries, product) + 2
    ensures QuantityOf(AddOneOf(AddOneOf(entries, product), product), other) == QuantityOf(entries, other)
  {
    AddOneOfQuantities(entries, product);
    AddOneOfQuantities(AddOneOf(entries, product), product);
  }

  /** A product added to an empty cart has quantity 1. */
  lemma FirstAddIsOne(product: int)
    ensures AddOneOf([], product) == [CartEntry(product, 1)]
    ensures QuantityOf(AddOneOf([], product), product) == 1
  {
  }

  // ---------------------------------------------------------------------
  // Editing an order's lines
  // ---------------------------------------------------------------------

  /** The line's order is the requester's and is in preparation ('P'). */
  predicate EditableBy(orders: seq<Order>, l: ProductLine, user: int)
  {
    var j := OrderIndex(orders, l.order);
    j.Some? && orders[j.value].user == user && orders[j.value].state == Preparacion
  }

  /** `get_object_or_404(OrderContainsProduct, id=item, order__user=user, order__state='P')`. */
  function ItemIndex(orders: seq<Order>, lines: seq<ProductLine>, item: int, user: int): (r: Option<nat>)
    ensures r.Some? ==> r.value < |lines| && lines[r.value].id == item && EditableBy(orders, lines[r.value], user)
    ensures r.None? <==> forall l :: l in lines && l.id == item ==> !EditableBy(orders, l, user)
  {
    if lines == [] then None
    else if lines[0].id == item && EditableBy(orders, lines[0], user) then Some(0)
    else
      var rest := ItemIndex(orders, lines[1..], item, user);
      assert lines == [lines[0]] + lines[1..];
      if rest.Some? then Some(rest.value + 1) else None
  }

  /**
   * The line the request names and the index of its order: where the three
   * views below write.
   */
  function EditTarget(orders: seq<Order>, lines: seq<ProductLine>, item: int, user: int): (r: Option<(nat, nat)>)
    ensures r.None? <==> ItemIndex(orders, lines, item, user).None?
    ensures r.Some? ==> r.value.0 == ItemIndex(orders, lines, item, user).value && r.value.0 < |lines|
    ensures r.Some? ==> r.value.1 < |orders| && orders[r.value.1].id == lines[r.value.0].order
    ensures r.Some? ==> orders[r.value.1].user == user && orders[r.value.1].state == Preparacion
  {
    var k := ItemIndex(orders, lines, item, user);
    if k.None? then None
    else Some((k.value, OrderIndex(orders, lines[k.value].order).value))
  }

  /**
   * `AddOneView.post`: one more of the line's product, its subtotal saved
   * again, and the order's amount recomputed as the sum of its product
   * lines' subtotals.
   */
  method AddOne(store: OrderStore, item: int, user: int, products: map<int, Product>) returns (found: bool)
    requires store.Valid()
    requires forall l :: l in store.lines ==> l.product in products
    modifies store
    ensures store.Valid()
    ensures var t := EditTarget(old(store.orders), old(store.lines), item, user);
      (found <==> t.Some?) &&
      (!found ==> store.orders == old(store.orders) && store.lines == old(store.lines)) &&
      (found ==>
        var l := old(store.lines)[t.value.0];
        store.lines == old(store.lines)[t.value.0 := l.(quantity := l.quantity + 1, subtotal := LineSubtotal(products[l.product], l.quantity + 1))] &&
        store.orders == old(store.orders)[t.value.1 := old(store.orders)[t.value.1].(amount := OrderAmount(store.lines, l.order))])
  {
    var t := EditTarget(store.orders, store.lines, item, user);
    if t.None? {
      return false;
    }
    var (k, j) := t.value;
    var l := store.lines[k];
    assert l in store.lines;
    store.SetQuantity(k, l.quantity + 1, products[l.product], j);
    found := true;
  }

  /**
   * `RemoveOneView.post`: one fewer when the quantity is above 1, the line
   * deleted at quantity 1 (or 0); then the order's amount recomputed from
   * the lines that remain.
   */
  method RemoveOne(store: OrderStore, item: int, user: int, products: map<int, Product>) returns (found: bool)
    requires store.Valid()
    requires forall l :: l in store.lines ==> l.product in products
    modifies store
    ensures store.Valid()
    ensures var t := EditTarget(old(store.orders), old(store.lines), item, user);
      (found <==> t.Some?) &&
      (!found ==> store.orders == old(store.orders) && store.lines == old(store.lines)) &&
      (found ==>
        var (k, j) := t.value;
        var l := old(store.lines)[k];
        (l.quantity > 1 ==>
          store.lines == old(store.lines)[k := l.(quantity := l.quantity - 1, subtotal := LineSubtotal(products[l.product], l.quantity - 1))]) &&
        (l.quantity <= 1 ==> store.lines == old(store.lines)[..k] + old(store.lines)[k + 1..]) &&
        store.orders == old(store.orders)[j := old(store.orders)[j].(amount := OrderAmount(store.lines, l.order))])
  {
    var t := EditTarget(store.orders, store.lines, item, user);
    if t.None? {
      return false;
    }
    var (k, j) := t.value;
    var l := store.lines[k];
    assert l in store.lines;
    if l.quantity > 1 {
      store.SetQuantity(k, l.quantity - 1, products[l.product], j);
    } else {
      store.DeleteLine(k, j);
    }
    found := true;
  }

  /** `DeleteItemView.form_valid`: the line deleted and the order's amount recomputed from the rest. */
  method DeleteItem(store: OrderStore, item: int, user: int) returns (found: bool)
    requires store.Valid()
    modifies store
    ensures store.Valid()
    ensures var t := EditTarget(old(store.orders), old(store.lines), item, user);
      (found <==> t.Some?) &&
      (!found ==> store.orders == old(store.orders) && store.lines == old(store.lines)) &&
      (found ==>
        var (k, j) := t.value;
        store.lines == old(store.lines)[..k] + old(store.lines)[k + 1..] &&
        store.orders == old(store.orders)[j := old(store.orders)[j].(amount := OrderAmount(store.lines, old(store.lines)[k].order))])
  {
    var t := EditTarget(store.orders, store.lines, item, user);
    if t.None? {
      return false;
    }
    var (k, j) := t.value;
    store.DeleteLine(k, j);
    found := true;
  }

  /**
   * When the amount was the sum of the lines before, adding one of a
   * product not on promotion raises it by the product's price.
   */
  lemma AddOneRaisesAmountByPrice(lines: seq<ProductLine>, k: nat, p: Product)
    requires k < |lines| && !p.onPromotion
    requires lines[k].subtotal == LineSubtotal(p, lines[k].quantity)
    ensures var l := lines[k];
      OrderAmount(lines[k := l.(quantity := l.quantity + 1, subtotal := LineSubtotal(p, l.quantity + 1))], l.order) ==
      OrderAmount(lines, l.order) + p.price as real
  {
    var l := lines[k];
    var changed := l.(quantity := l.quantity + 1, subtotal := LineSubtotal(p, l.quantity + 1));
    SubtotalOneMore(p, l.quantity);
    assert changed.subtotal - l.subtotal == p.price as real;
    AmountAfterReplace(lines, k, changed, l.order);
  }

  /** Removing one of a product not on promotion lowers the amount by its price. */
  lemma RemoveOneLowersAmountByPrice(lines: seq<ProductLine>, k: nat, p: Product)
    requires k < |lines| && !p.onPromotion && lines[k].quantity > 1
    requires lines[k].subtotal == LineSubtotal(p, lines[k].quantity)
    ensures var l := lines[k];
      OrderAmount(lines[k := l.(quantity := l.quantity - 1, subtotal := LineSubtotal(p, l.quantity - 1))], l.order) ==
      OrderAmount(lines, l.order) - p.price as real
  {
    var l := lines[k];
    var changed := l.(quantity := l.quantity - 1, subtotal := LineSubtotal(p, l.quantity - 1));
    SubtotalOneMore(p, l.quantity - 1);
    assert l.subtotal - changed.subtotal == p.price as real;
    AmountAfterReplace(lines, k, changed, l.order);
  }

  /** Deleting a line lowers its order's amount by the line's subtotal. */
  lemma DeleteLowersAmountBySubtotal(lines: seq<ProductLine>, k: nat)
    requires k < |lines|
    ensures OrderAmount(lines[..k] + lines[k + 1..], lines[k].order) == OrderAmount(lines, lines[k].order) - lines[k].subtotal
  {
    AmountAfterRemove(lines, k, lines[k].order);
  }

  /**
   * `CancelOrderView.form_valid` of the menu: the requester's order is
   * deleted, with its lines, only when it is in preparation ('P');
   * otherwise it is not found and nothing changes.
   */
  method CancelOrder(store: OrderStore, id: int, user: int) returns (deleted: bool)
    requires store.Valid()
    modifies store
    ensures store.Valid()
    ensures var j := OwnOrderIndex(old(store.orders), id, user);
      deleted <==> j.Some? && old(store.orders)[j.value].state == Preparacion
    ensures !deleted ==> store.orders == old(store.orders) && store.lines == old(store.lines)
    ensures deleted ==>
      var j := OwnOrderIndex(old(store.orders), id, user).value;
      store.orders == old(store.orders)[..j] + old(store.orders)[j + 1..] && store.lines == LinesNotOf(old(store.lines), id)
  {
    var j := OwnOrderIndex(store.orders, id, user);
    if j.None? || store.orders[j.value].state != Preparacion {
      return false;
    }
    store.DeleteOrder(j.value);
    deleted := true;
  }

  // ---------------------------------------------------------------------
  // The menu and the bookings to order for
  // ---------------------------------------------------------------------

  function CategoryKey(c: Category): (int, int)
  {
    (c.id, 0)
  }

  function GroupKey(g: (Category, seq<Product>)): (int, int)
  {
    CategoryKey(g.0)
  }

  /** `Product.objects.filter(category=category)`. */
  function ProductsIn(products: seq<Product>, category: int): (r: seq<Product>)
    ensures forall p :: p in r <==> p in products && p.category == Some(category)
  {
    Filter(products, (p: Product) => p.category == Some(category))
  }

  /** `Category.objects.filter(isActive=True).order_by('id')`. */
  function ActiveCategories(categories: seq<Category>): (r: seq<Category>)
    ensures forall c :: c in r <==> c in categories && c.isActive
    ensures SortedBy(r, CategoryKey)
  {
    var r := SortBy(Filter(categories, (c: Category) => c.isActive), CategoryKey);
    assert forall c :: c in r <==> c in Filter(categories, (c: Category) => c.isActive) by {
      forall c ensures c in r <==> c in Filter(categories, (c: Category) => c.isActive) {
        SortByMembership(Filter(categories, (c: Category) => c.isActive), CategoryKey, c);
      }
    }
    r
  }

  /**
   * `MenuListView.get_context_data`: for each active category, by id, its
   * products, skipping the categories that have none.
   */
  method MenuGroups(categories: seq<Category>, products: seq<Product>) returns (groups: seq<(Category, seq<Product>)>)
    ensures forall g :: g in groups ==> g.0 in categories && g.0.isActive && g.1 == ProductsIn(products, g.0.id) && g.1 != []
    ensures forall c :: c in categories && c.isActive && ProductsIn(products, c.id) != [] ==> (c, ProductsIn(products, c.id)) in groups
    ensures SortedBy(groups, GroupKey)
  {
    var active := ActiveCategories(categories);
    groups := [];
    var i := 0;
    while i < |active|
      invariant 0 <= i <= |active|
      invariant GroupsUpTo(products, active, i, groups)
    {
      var c := active[i];
      var ps := ProductsIn(products, c.id);
      GroupsStep(products, active, i, groups);
      if ps != [] {
        groups := groups + [(c, ps)];
      }
      i := i + 1;
    }
    assert active[..i] == active;
  }

  /** The groups built from the first i active categories. */
  predicate GroupsUpTo(products: seq<Product>, active: seq<Category>, i: nat, groups: seq<(Category, seq<Product>)>)
    requires i <= |active|
  {
    (forall g :: g in groups ==> g.0 in active[..i] && g.1 == ProductsIn(products, g.0.id) && g.1 != []) &&
    (forall c :: c in active[..i] && ProductsIn(products, c.id) != [] ==> (c, ProductsIn(products, c.id)) in groups) &&
    SortedBy(groups, GroupKey)
  }

  /** One more category: its group is appended when it has products. */
  lemma GroupsStep(products: seq<Product>, active: seq<Category>, i: nat, groups: seq<(Category, seq<Product>)>)
    requires SortedBy(active, CategoryKey) && i < |active| && GroupsUpTo(products, active, i, groups)
    ensures var ps := ProductsIn(products, active[i].id);
      GroupsUpTo(products, active, i + 1, if ps != [] then groups + [(active[i], ps)] else groups)
  {
    var c := active[i];
    var ps := ProductsIn(products, c.id);
    assert active[..i + 1] == active[..i] + [c];
    if ps != [] {
      forall g | g in groups ensures KeyLeq(GroupKey(g), CategoryKey(c)) {
        EarlierNoLater(active, i, g.0);
      }
      AppendSorted(groups, (c, ps));
    }
  }

  /** In categories sorted by id, one met before position i comes no later than the one at i. */
  lemma EarlierNoLater(active: seq<Category>, i: nat, c: Category)
    requires SortedBy(active, CategoryKey) && i < |active| && c in active[..i]
    ensures KeyLeq(CategoryKey(c), CategoryKey(active[i]))
  {
    var m :| 0 <= m < i && active[..i][m] == c;
    assert active[m] == c;
  }

  lemma AppendSorted(groups: seq<(Category, seq<Product>)>, g: (Category, seq<Product>))
    requires SortedBy(groups, GroupKey)
    requires forall h :: h in groups ==> KeyLeq(GroupKey(h), GroupKey(g))
    ensures SortedBy(groups + [g], GroupKey)
  {
    var r := groups + [g];
    forall a, b | 0 <= a < b < |r| ensures KeyLeq(GroupKey(r[a]), GroupKey(r[b])) {
      assert r[a] == groups[a];
      if b == |groups| { assert groups[a] in groups; }
    }
  }

  /**
   * `MyOrdersView.get`'s upcoming bookings: the requester's bookings that
   * are approved, have an approval date and start later than now, sorted
   * by date and start time.
   */
  function UpcomingBookings(bookings: seq<Booking>, user: int, c: Clock): (r: seq<Booking>)
    ensures forall b :: b in r <==> b in bookings && b.user == user && b.approved && b.approvalDate.Some? && StartsLater(b, c)
    ensures SortedBy(r, AscKey)
  {
    var upcoming := Futuras(DelUsuario(bookings, user), c);
    var r := SortBy(upcoming, AscKey);
    assert forall b :: b in r <==> b in upcoming by {
      forall b ensures b in r <==> b in upcoming { SortByMembership(upcoming, AscKey, b); }
    }
    r
  }

  /**
   * The booking `MyOrdersView.get` selects: the requested one when the
   * query names one (any non-empty string is truthy, "0" included), or
   * else the one in the session when it is set and not 0; it must be among
   * the upcoming bookings (otherwise not found), and a requested one is
   * remembered in the session.
   */
  method SelectBooking(session: Session, requested: Option<int>, upcoming: seq<Booking>)
    returns (selected: Option<Booking>, notFound: bool)
    requires session.Valid()
    modifies session
    ensures session.Valid() && session.cart == old(session.cart)
    ensures var id := if requested.Some? then requested
        else if old(session.selectedBooking).Some? && old(session.selectedBooking).value != 0 then old(session.selectedBooking)
        else None;
      (id.None? ==> selected.None? && !notFound) &&
      (id.Some? ==> (notFound <==> forall b :: b in upcoming ==> b.id != id.value)) &&
      (id.Some? && !notFound ==> selected.Some?) &&
      (selected.Some? ==> selected.value in upcoming && id.Some? && selected.value.id == id.value)
    ensures requested.Some? && !notFound ==> session.selectedBooking == requested
    ensures !(requested.Some? && !notFound) ==> session.selectedBooking == old(session.selectedBooking)
  {
    var id := if requested.Some? then requested
      else if session.selectedBooking.Some? && session.selectedBooking.value != 0 then session.selectedBooking
      else None;
    if id.None? {
      return None, false;
    }
    var found := Filter(upcoming, (b: Booking) => b.id == id.value);
    if found == [] {
      return None, true;
    }
    assert found[0] in found;
    selected, notFound := Some(found[0]), false;
    if requested.Some? {
      session.selectedBooking := requested;
    }
  }
}
