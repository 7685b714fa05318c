/**
 * Orders and their product lines (menu_app/models.py): the order code that
 * `Order.save` generates with a bounded number of retries, the subtotal a
 * line stores when it is saved, and an order's amount as the sum of its
 * product lines' subtotals.
 *
 * Amounts and subtotals are exact reals of cents: a promotion price is a
 * fraction of a cent in general.
 */
module Orders {
  import opened Wrappers
  import opened Queries
  import opened Catalog

  /** The order states 'S', 'P', 'E', 'R' and 'C'. */
  datatype OrderState = Solicitado | Preparacion | Enviado | Recibido | Cancelado

  datatype Order = Order(
    id: int,
    code: string,
    buyDate: int,
    amount: real,
    state: OrderState,
    user: int,
    booking: Option<int>)

  /** An `OrderContainsProduct` row. */
  datatype ProductLine = ProductLine(id: int, order: int, product: int, quantity: nat, subtotal: real)

  // ---------------------------------------------------------------------
  // Order codes
  // ---------------------------------------------------------------------

  const HexDigits: string := "0123456789ABCDEF"
  const OrderCodePrefix: string := "PDD-"
  const MaxAttempts: nat := 10
  const CodeColumnWidth: nat := 15

  /** "PDD-" and eight upper-case hexadecimal digits. */
  predicate IsOrderCode(code: string)
  {
    |code| == 12 && code[..4] == OrderCodePrefix && forall i :: 4 <= i < 12 ==> code[i] in HexDigits
  }

  /** One `uuid4()`: its first eight hexadecimal digits are all the code uses. */
  predicate IsHexDraw(draw: seq<int>)
  {
    |draw| == 8 && forall i :: 0 <= i < 8 ==> 0 <= draw[i] < 16
  }

  /** `generate_order_code` for one draw. */
  function OrderCodeOf(draw: seq<int>): (code: string)
    requires IsHexDraw(draw)
    ensures IsOrderCode(code) && |code| <= CodeColumnWidth
  {
    var digits := seq(8, i requires 0 <= i < 8 => HexDigits[draw[i]]);
    assert (OrderCodePrefix + digits)[..4] == OrderCodePrefix;
    OrderCodePrefix + digits
  }

  /**
   * `_generate_unique_code`: up to ten draws; the first code no order uses
   * is returned, and after ten codes in use the generation fails.
   */
  method GenerateOrderCode(used: set<string>, draws: seq<seq<int>>) returns (r: Result<string, string>)
    requires |draws| >= MaxAttempts
    requires forall k :: 0 <= k < |draws| ==> IsHexDraw(draws[k])
    ensures r.Ok? ==> IsOrderCode(r.value) && r.value !in used
    ensures r.Ok? ==>
      exists k :: 0 <= k < MaxAttempts && r.value == OrderCodeOf(draws[k]) && (forall j :: 0 <= j < k ==> OrderCodeOf(draws[j]) in used)
    ensures r.Err? <==> forall k :: 0 <= k < MaxAttempts ==> OrderCodeOf(draws[k]) in used
  {
    var attempt := 0;
    while attempt < MaxAttempts
      invariant 0 <= attempt <= MaxAttempts
      invariant forall j :: 0 <= j < attempt ==> OrderCodeOf(draws[j]) in used
    {
      var code := OrderCodeOf(draws[attempt]);
      if code !in used {
        return Ok(code);
      }
      attempt := attempt + 1;
    }
    return Err("No se pudo generar un código único después de 10 intentos");
  }

  // ---------------------------------------------------------------------
  // Lines and amounts
  // ---------------------------------------------------------------------

  /**
   * The subtotal `OrderContainsProduct.save` stores: the discounted unit
   * price times the quantity for a product on promotion, the price times
   * the quantity otherwise.
   */
  function LineSubtotal(p: Product, quantity: nat): (r: real)
    ensures !p.onPromotion ==> r == (p.price * quantity) as real
    ensures ProductPromotionConsistent(p) && p.price >= 0 ==> 0.0 <= r <= (p.price * quantity) as real
  {
    if p.onPromotion then
      var unit := ProductDiscountedPrice(p);
      ScaleReal(unit, p.price as real, quantity as real);
      assert (p.price * quantity) as real == p.price as real * quantity as real;
      unit * quantity as real
    else (p.price * quantity) as real
  }

  /**
   * As written, `OrderContainsProduct.save` multiplies `discounted_price`,
   * which divides the percentage by 80: at 20 % a line of one product priced
   * 1000 cents is stored as 750 cents, where the corrected price gives 800.
   */
  lemma PromotedSubtotalAsWrittenDiffers()
    ensures var p := Product(1, "Pizza", "Muzzarella", 1000, 1, None, true, 20, true);
      ProductDiscountedPriceAsWritten(p) * 1.0 == 750.0 && LineSubtotal(p, 1) == 800.0
  {
  }

  /** The subtotal `OrderContainsCombo.save` stores, by the same rule with the combo's prices. */
  function ComboLineSubtotal(c: Combo, quantity: nat): (r: real)
    ensures !c.onPromotion ==> r == (c.price * quantity) as real
    ensures ComboPromotionConsistent(c) && c.price >= 0 ==> 0.0 <= r <= (c.price * quantity) as real
  {
    if c.onPromotion then
      var unit := ComboDiscountedPrice(c);
      ScaleReal(unit, c.price as real, quantity as real);
      assert (c.price * quantity) as real == c.price as real * quantity as real;
      unit * quantity as real
    else (c.price * quantity) as real
  }

  /** Without a promotion one more unit adds the product's price to the subtotal. */
  lemma SubtotalOneMore(p: Product, quantity: nat)
    requires !p.onPromotion
    ensures LineSubtotal(p, quantity + 1) == LineSubtotal(p, quantity) + p.price as real
  {
    assert p.price * (quantity + 1) == p.price * quantity + p.price;
  }

  lemma ScaleReal(x: real, bound: real, k: real)
    ensures 0.0 <= x <= bound && k >= 0.0 ==> 0.0 <= x * k <= bound * k
  {
  }

  function SumSubtotals(lines: seq<ProductLine>): real
  {
    if lines == [] then 0.0 else lines[0].subtotal + SumSubtotals(lines[1..])
  }

  /** `sum(i.subtotal for i in order.ordercontainsproduct_set.all())`. */
  function OrderAmount(lines: seq<ProductLine>, order: int): real
  {
    SumSubtotals(Filter(lines, (l: ProductLine) => l.order == order))
  }

  /** Lines with no negative subtotal add up to no negative sum. */
  lemma {:induction false} SumSubtotalsNonNegative(lines: seq<ProductLine>)
    requires forall l :: l in lines ==> l.subtotal >= 0.0
    ensures SumSubtotals(lines) >= 0.0
  {
    if lines != [] {
      assert forall l :: l in lines[1..] ==> l in lines;
      SumSubtotalsNonNegative(lines[1..]);
    }
  }

  /** An order whose lines have no negative subtotal has no negative amount; an order without lines has amount 0. */
  lemma OrderAmountNonNegative(lines: seq<ProductLine>, order: int)
    requires forall l :: l in lines && l.order == order ==> l.subtotal >= 0.0
    ensures OrderAmount(lines, order) >= 0.0
    ensures (forall l :: l in lines ==> l.order != order) ==> OrderAmount(lines, order) == 0.0
  {
    var mine := Filter(lines, (l: ProductLine) => l.order == order);
    SumSubtotalsNonNegative(mine);
    if mine != [] {
      assert mine[0] in mine;
    }
  }

  /** The amount over a line followed by others: the line's subtotal when it is of the order, plus the rest's amount. */
  lemma AmountCons(x: ProductLine, rest: seq<ProductLine>, order: int)
    ensures OrderAmount([x] + rest, order) == (if x.order == order then x.subtotal else 0.0) + OrderAmount(rest, order)
  {
    assert ([x] + rest)[1..] == rest;
  }

  /** Updating a line after the first one updates the tail. */
  lemma UpdateBeyondHead(lines: seq<ProductLine>, k: int, l: ProductLine)
    requires 0 < k < |lines|
    ensures lines[k := l] == [lines[0]] + lines[1..][k - 1 := l]
  {
  }

  /** Replacing one line of an order by another of the same order changes the amount by the difference of subtotals. */
  lemma {:induction false} AmountAfterReplace(lines: seq<ProductLine>, k: int, l: ProductLine, order: int)
    requires 0 <= k < |lines| && lines[k].order == l.order
    ensures OrderAmount(lines[k := l], order) ==
      OrderAmount(lines, order) + (if l.order == order then l.subtotal - lines[k].subtotal else 0.0)
  {
    assert lines == [lines[0]] + lines[1..];
    AmountCons(lines[0], lines[1..], order);
    if k == 0 {
      assert lines[k := l] == [l] + lines[1..];
      AmountCons(l, lines[1..], order);
    } else {
      var rest := lines[1..][k - 1 := l];
      UpdateBeyondHead(lines, k, l);
      AmountCons(lines[0], rest, order);
      AmountAfterReplace(lines[1..], k - 1, l, order);
    }
  }

  /** Removing a line of an order lowers the amount by its subtotal; other orders keep theirs. */
  lemma {:induction false} AmountAfterRemove(lines: seq<ProductLine>, k: int, order: int)
    requires 0 <= k < |lines|
    ensures OrderAmount(lines[..k] + lines[k + 1..], order) ==
      OrderAmount(lines, order) - (if lines[k].order == order then lines[k].subtotal else 0.0)
  {
    assert lines == [lines[0]] + lines[1..];
    AmountCons(lines[0], lines[1..], order);
    if k == 0 {
      assert lines[..k] + lines[k + 1..] == lines[1..];
    } else {
      var rest := lines[1..];
      assert lines[..k] + lines[k + 1..] == [lines[0]] + (rest[..k - 1] + rest[k..]);
      AmountCons(lines[0], rest[..k - 1] + rest[k..], order);
      AmountAfterRemove(rest, k - 1, order);
    }
  }

  /** The lines that do not belong to an order: what the cascade of its deletion leaves. */
  function LinesNotOf(lines: seq<ProductLine>, order: int): (r: seq<ProductLine>)
    ensures forall l :: l in r <==> l in lines && l.order != order
  {
    Filter(lines, (l: ProductLine) => l.order != order)
  }

  /** The position of the row with the given id, when there is one. */
  function OrderIndex(orders: seq<Order>, id: int): (r: Option<nat>)
    ensures r.Some? ==> r.value < |orders| && orders[r.value].id == id
    ensures r.None? <==> forall o :: o in orders ==> o.id != id
  {
    if orders == [] then None
    else if orders[0].id == id then Some(0)
    else
      var rest := OrderIndex(orders[1..], id);
      assert orders == [orders[0]] + orders[1..];
      if rest.Some? then Some(rest.value + 1) else None
  }

  function LineIndex(lines: seq<ProductLine>, id: int): (r: Option<nat>)
    ensures r.Some? ==> r.value < |lines| && lines[r.value].id == id
    ensures r.None? <==> forall l :: l in lines ==> l.id != id
  {
    if lines == [] then None
    else if lines[0].id == id then Some(0)
    else
      var rest := LineIndex(lines[1..], id);
      assert lines == [lines[0]] + lines[1..];
      if rest.Some? then Some(rest.value + 1) else None
  }

  /** `get_object_or_404(Order, pk=id, user=user)`: the requester's order with that id. */
  function OwnOrderIndex(orders: seq<Order>, id: int, user: int): (r: Option<nat>)
    ensures r.Some? ==> r.value < |orders| && orders[r.value].id == id && orders[r.value].user == user
    ensures r.None? <==> forall o :: o in orders && o.id == id ==> o.user != user
  {
    if orders == [] then None
    else if orders[0].id == id && orders[0].user == user then Some(0)
    else
      var rest := OwnOrderIndex(orders[1..], id, user);
      assert orders == [orders[0]] + orders[1..];
      if rest.Some? then Some(rest.value + 1) else None
  }

  function IdsOf(orders: seq<Order>): (r: seq<int>)
    ensures |r| == |orders| && forall i :: 0 <= i < |orders| ==> r[i] == orders[i].id
  {
    seq(|orders|, i requires 0 <= i < |orders| => orders[i].id)
  }

  function Codes(orders: seq<Order>): set<string>
  {
    set o | o in orders :: o.code
  }

  /** Order ids and codes are unique. */
  predicate DistinctOrders(orders: seq<Order>)
  {
    forall a, b :: 0 <= a < b < |orders| ==> orders[a].id != orders[b].id && orders[a].code != orders[b].code
  }

  /** Every line belongs to one of the orders. */
  predicate LinesInOrders(lines: seq<ProductLine>, orders: seq<Order>)
  {
    forall l :: l in lines ==> l.order in IdsOf(orders)
  }

  /** Replacing an order by one with the same id and code keeps ids and codes unique and every line's order present. */
  lemma ReplaceOrderKeeps(orders: seq<Order>, lines: seq<ProductLine>, j: nat, o: Order)
    requires j < |orders| && o.id == orders[j].id && o.code == orders[j].code
    requires DistinctOrders(orders) && LinesInOrders(lines, orders)
    ensures DistinctOrders(orders[j := o]) && LinesInOrders(lines, orders[j := o])
    ensures forall a :: 0 <= a < |orders| ==> orders[j := o][a].id == orders[a].id
  {
    assert IdsOf(orders[j := o]) == IdsOf(orders);
  }

  /** Removing the order at index j shifts the later orders down by one. */
  lemma RemoveOrderShifts(orders: seq<Order>, j: nat)
    requires j < |orders|
    ensures var kept := orders[..j] + orders[j + 1..];
      |kept| == |orders| - 1 && forall a :: 0 <= a < |kept| ==> kept[a] == orders[if a < j then a else a + 1]
  {
  }

  /** Removing the order at index j keeps ids and codes unique; the lines of the other orders keep their order. */
  lemma RemoveOrderKeeps(orders: seq<Order>, lines: seq<ProductLine>, j: nat)
    requires j < |orders| && DistinctOrders(orders) && LinesInOrders(lines, orders)
    ensures var kept := orders[..j] + orders[j + 1..];
      DistinctOrders(kept) && LinesInOrders(LinesNotOf(lines, orders[j].id), kept) &&
      forall a :: 0 <= a < |kept| ==> kept[a] == orders[if a < j then a else a + 1]
  {
    var kept := orders[..j] + orders[j + 1..];
    RemoveOrderShifts(orders, j);
    var ids := IdsOf(orders);
    var keptIds := IdsOf(kept);
    forall l | l in LinesNotOf(lines, orders[j].id) ensures l.order in keptIds {
      var i :| 0 <= i < |ids| && ids[i] == l.order;
      if i < j {
        assert keptIds[i] == l.order;
      } else {
        assert i != j;
        assert keptIds[i - 1] == l.order;
      }
    }
  }

  /** Lines taken from lines that belong to the orders belong to them too. */
  lemma FewerLinesKeep(lines: seq<ProductLine>, fewer: seq<ProductLine>, orders: seq<Order>)
    requires LinesInOrders(lines, orders) && forall l :: l in fewer ==> l in lines
    ensures LinesInOrders(fewer, orders)
  {
  }

  /** Removing the line at index k leaves lines that were all there before. */
  lemma RemoveLineKeeps(lines: seq<ProductLine>, k: nat)
    requires k < |lines|
    ensures forall l :: l in lines[..k] + lines[k + 1..] ==> l in lines
  {
    var r := lines[..k] + lines[k + 1..];
    forall l | l in r ensures l in lines {
      var i :| 0 <= i < |r| && r[i] == l;
      if i < k { assert lines[i] == l; } else { assert lines[i + 1] == l; }
    }
  }

  /** Replacing a line by one of the same order keeps every line's order present. */
  lemma ReplaceLineKeeps(lines: seq<ProductLine>, k: nat, l: ProductLine, orders: seq<Order>)
    requires k < |lines| && l.order == lines[k].order && LinesInOrders(lines, orders)
    ensures LinesInOrders(lines[k := l], orders)
  {
    forall x | x in lines[k := l] ensures x.order in IdsOf(orders) {
      var i :| 0 <= i < |lines| && lines[k := l][i] == x;
      assert lines[i] in lines;
    }
  }

  /** The order table and the product-line table. */
  class OrderStore {
    var orders: seq<Order>
    var lines: seq<ProductLine>
    var nextOrderId: int

    /** Unique order ids and codes, and every line in a stored order. */
    ghost predicate Valid()
      reads this
    {
      DistinctOrders(orders) &&
      (forall i :: 0 <= i < |orders| ==> orders[i].id < nextOrderId) &&
      LinesInOrders(lines, orders)
    }

    constructor ()
      ensures Valid() && orders == [] && lines == []
    {
      orders := [];
      lines := [];
      nextOrderId := 1;
    }

    /**
     * `Order.save` of a new order: an order without a code gets a generated
     * one; when generation fails nothing is saved. A code already in use
     * breaks the column's uniqueness and nothing is saved either.
     */
    method Insert(o: Order, draws: seq<seq<int>>) returns (r: Result<Order, string>)
      requires Valid()
      requires |draws| >= MaxAttempts && forall k :: 0 <= k < |draws| ==> IsHexDraw(draws[k])
      modifies this
      ensures Valid() && lines == old(lines)
      ensures r.Err? ==> orders == old(orders)
      ensures r.Ok? ==> orders == old(orders) + [r.value]
      ensures r.Ok? ==> r.value == o.(id := old(nextOrderId), code := r.value.code) && r.value.code !in Codes(old(orders))
      ensures r.Ok? && o.code != "" ==> r.value.code == o.code
      ensures r.Ok? && o.code == "" ==> IsOrderCode(r.value.code)
      ensures o.code != "" ==> (r.Ok? <==> o.code !in Codes(old(orders)))
      ensures o.code == "" ==> (r.Err? <==> forall k :: 0 <= k < MaxAttempts ==> OrderCodeOf(draws[k]) in Codes(old(orders)))
      ensures r.Ok? && o.code == "" ==>
        exists k :: 0 <= k < MaxAttempts && r.value.code == OrderCodeOf(draws[k]) &&
          forall j :: 0 <= j < k ==> OrderCodeOf(draws[j]) in Codes(old(orders))
    {
      var code := o.code;
      if code == "" {
        var generated := GenerateOrderCode(Codes(orders), draws);
        if generated.Err? {
          return Err(generated.error);
        }
        code := generated.value;
      } else if code in Codes(orders) {
        return Err("código duplicado");
      }
      var saved := o.(id := nextOrderId, code := code);
      assert forall i :: 0 <= i < |orders| ==> orders[i].code in Codes(orders);
      orders := orders + [saved];
      assert IdsOf(orders) == IdsOf(old(orders)) + [saved.id];
      nextOrderId := nextOrderId + 1;
      r := Ok(saved);
    }

    /** Sets the state of the order at index j and saves it. */
    method SetState(j: nat, s: OrderState)
      requires Valid() && j < |orders|
      modifies this
      ensures Valid() && lines == old(lines) && nextOrderId == old(nextOrderId)
      ensures orders == old(orders)[j := old(orders)[j].(state := s)]
    {
      ReplaceOrderKeeps(orders, lines, j, orders[j].(state := s));
      orders := orders[j := orders[j].(state := s)];
    }

    /** Deletes the order at index j; its product lines go with it (on_delete=CASCADE). */
    method DeleteOrder(j: nat)
      requires Valid() && j < |orders|
      modifies this
      ensures Valid() && nextOrderId == old(nextOrderId)
      ensures orders == old(orders)[..j] + old(orders)[j + 1..]
      ensures lines == LinesNotOf(old(lines), old(orders)[j].id)
    {
      RemoveOrderKeeps(orders, lines, j);
      lines := LinesNotOf(lines, orders[j].id);
      orders := orders[..j] + orders[j + 1..];
    }

    /**
     * `OrderContainsProduct.save` on the line at index k with a new
     * quantity, then `order.amount` recomputed from the order's lines.
     */
    method SetQuantity(k: nat, quantity: nat, p: Product, j: nat)
      requires Valid() && k < |lines| && j < |orders| && orders[j].id == lines[k].order
      modifies this
      ensures Valid() && nextOrderId == old(nextOrderId)
      ensures lines == old(lines)[k := old(lines)[k].(quantity := quantity, subtotal := LineSubtotal(p, quantity))]
      ensures orders == old(orders)[j := old(orders)[j].(amount := OrderAmount(lines, old(orders)[j].id))]
    {
      var line := lines[k].(quantity := quantity, subtotal := LineSubtotal(p, quantity));
      ReplaceLineKeeps(lines, k, line, orders);
      lines := lines[k := line];
      var o := orders[j].(amount := OrderAmount(lines, orders[j].id));
      ReplaceOrderKeeps(orders, lines, j, o);
      orders := orders[j := o];
    }

    /** Deletes the line at index k, then recomputes the amount of its order, at index j. */
    method DeleteLine(k: nat, j: nat)
      requires Valid() && k < |lines| && j < |orders| && orders[j].id == lines[k].order
      modifies this
      ensures Valid() && nextOrderId == old(nextOrderId)
      ensures lines == old(lines)[..k] + old(lines)[k + 1..]
      ensures orders == old(orders)[j := old(orders)[j].(amount := OrderAmount(lines, old(orders)[j].id))]
    {
      RemoveLineKeeps(lines, k);
      FewerLinesKeep(lines, lines[..k] + lines[k + 1..], orders);
      lines := lines[..k] + lines[k + 1..];
      var o := orders[j].(amount := OrderAmount(lines, orders[j].id));
      ReplaceOrderKeeps(orders, lines, j, o);
      orders := orders[j := o];
    }
  }
}
