/**
 * The menu catalogue (menu_app/models.py): products, categories, combos
 * and their ratings; the validators that return error maps, the discount
 * and promotion setters with their range checks, and the `update` methods
 * that keep the old value of a field for a falsy argument.
 *
 * Prices are integer cents. Each table of the database is a class whose
 * rows the methods replace; a model instance's `save()` is the replacement
 * of its row.
 */
module Catalog {
  import opened Wrappers

  datatype Product = Product(
    id: int,
    name: string,
    description: string,
    price: int,
    quantity: int,
    category: Option<int>,
    onPromotion: bool,
    discountPercentage: int,
    isAvailable: bool)

  datatype Category = Category(id: int, name: string, description: string, isActive: bool)

  /** A product review. */
  datatype ProductRating = ProductRating(title: string, text: string, rating: int, product: int, user: int)

  datatype Combo = Combo(
    id: int,
    name: string,
    description: string,
    price: int,
    products: set<int>,
    onPromotion: bool,
    discountPercentage: int,
    isActive: bool)

  const NameMissing: string := "Por favor ingrese un nombre"
  const DescriptionMissing: string := "Por favor ingrese una descripción"
  const PriceNotPositive: string := "Por favor ingrese un precio mayor a 0"
  const TitleMissing: string := "Por favor ingrese un título"
  const TextMissing: string := "Por favor ingrese un comentario"
  const RatingOutOfRange: string := "Por favor ingrese una calificación entre 1 y 5"
  const ComboNameMissing: string := "El nombre del combo no puede estar vacío."
  const ComboDescriptionMissing: string := "La descripción del combo no puede estar vacía."
  const ComboPriceNotPositive: string := "El precio del combo debe ser mayor a 0."
  const ComboWithoutProducts: string := "El combo debe contener al menos un producto."
  const ComboDiscountOutOfRange: string := "El porcentaje de descuento debe estar entre 0 y 80."

  // ---------------------------------------------------------------------
  // Validators
  // ---------------------------------------------------------------------

  /** `Product.validate`: one error per bad field, keyed by the field's name. */
  function ProductErrors(name: string, description: string, price: int): (errors: map<string, string>)
    ensures "name" in errors <==> name == ""
    ensures "description" in errors <==> description == ""
    ensures "price" in errors <==> price <= 0
    ensures errors.Keys <= {"name", "description", "price"}
  {
    var e1 := if name == "" then map["name" := NameMissing] else map[];
    var e2 := if description == "" then e1["description" := DescriptionMissing] else e1;
    if price <= 0 then e2["price" := PriceNotPositive] else e2
  }

  /** `Category.validate`. */
  function CategoryErrors(name: string, description: string): (errors: map<string, string>)
    ensures "name" in errors <==> name == ""
    ensures "description" in errors <==> description == ""
    ensures errors.Keys <= {"name", "description"}
  {
    var e1 := if name == "" then map["name" := NameMissing] else map[];
    if description == "" then e1["description" := DescriptionMissing] else e1
  }

  /** `Rating.validate` of a product review: title, text and a rating from 1 to 5. */
  function RatingErrors(title: string, text: string, rating: int): (errors: map<string, string>)
    ensures "title" in errors <==> title == ""
    ensures "text" in errors <==> text == ""
    ensures "rating" in errors <==> rating < 1 || rating > 5
    ensures errors.Keys <= {"title", "text", "rating"}
  {
    var e1 := if title == "" then map["title" := TitleMissing] else map[];
    var e2 := if text == "" then e1["text" := TextMissing] else e1;
    if rating < 1 || rating > 5 then e2["rating" := RatingOutOfRange] else e2
  }

  /** A product passes validation exactly when it has a name, a description and a positive price. */
  lemma ProductAccepted(name: string, description: string, price: int)
    ensures ProductErrors(name, description, price) == map[] <==> name != "" && description != "" && price > 0
  {
    if name == "" { assert "name" in ProductErrors(name, description, price); }
    else if description == "" { assert "description" in ProductErrors(name, description, price); }
    else if price <= 0 { assert "price" in ProductErrors(name, description, price); }
  }

  /** A review passes validation exactly when it has a title, a text and a rating from 1 to 5. */
  lemma RatingAccepted(title: string, text: string, rating: int)
    ensures RatingErrors(title, text, rating) == map[] <==> title != "" && text != "" && 1 <= rating <= 5
  {
    if title == "" { assert "title" in RatingErrors(title, text, rating); }
    else if text == "" { assert "text" in RatingErrors(title, text, rating); }
    else if rating < 1 || rating > 5 { assert "rating" in RatingErrors(title, text, rating); }
  }

  /** `ComboRating.validate`: a title and a text that are neither None nor empty, and a rating from 1 to 5. */
  function ComboRatingErrors(title: Option<string>, text: Option<string>, rating: int): (errors: map<string, string>)
    ensures "title" in errors <==> title.None? || title.value == ""
    ensures "text" in errors <==> text.None? || text.value == ""
    ensures "rating" in errors <==> rating < 1 || rating > 5
    ensures errors.Keys <= {"title", "text", "rating"}
  {
    var e1 := if title.None? || title.value == "" then map["title" := "El título es obligatorio."] else map[];
    var e2 := if text.None? || text.value == "" then e1["text" := "El comentario no puede estar vacío."] else e1;
    if rating < 1 || rating > 5 then e2["rating" := "La calificación debe estar entre 1 y 5."] else e2
  }

  /**
   * `Combo.clean`: a name, a description, a positive price, at least one
   * product once the combo is saved (it has a truthy primary key), and a
   * discount from 0 to 80. The errors are raised together.
   */
  function ComboErrors(name: string, description: string, price: Option<int>, saved: bool, productCount: nat, discountPercentage: int)
    : (errors: map<string, string>)
    ensures "name" in errors <==> name == ""
    ensures "description" in errors <==> description == ""
    ensures "price" in errors <==> price.None? || price.value <= 0
    ensures "products" in errors <==> saved && productCount == 0
    ensures "dicount_percentage" in errors <==> discountPercentage < 0 || discountPercentage > 80
    ensures errors.Keys <= {"name", "description", "price", "products", "dicount_percentage"}
  {
    ComboTextErrors(name, description, price) + ComboContentErrors(saved, productCount, discountPercentage)
  }

  /** The checks of `Combo.clean` on the combo's own fields. */
  function ComboTextErrors(name: string, description: string, price: Option<int>): (errors: map<string, string>)
    ensures "name" in errors <==> name == ""
    ensures "description" in errors <==> description == ""
    ensures "price" in errors <==> price.None? || price.value <= 0
    ensures errors.Keys <= {"name", "description", "price"}
  {
    var e1 := AddIf(map[], name == "", "name", ComboNameMissing);
    var e2 := AddIf(e1, description == "", "description", ComboDescriptionMissing);
    AddIf(e2, price.None? || price.value <= 0, "price", ComboPriceNotPositive)
  }

  /** The checks of `Combo.clean` on the combo's products and discount. */
  function ComboContentErrors(saved: bool, productCount: nat, discountPercentage: int): (errors: map<string, string>)
    ensures "products" in errors <==> saved && productCount == 0
    ensures "dicount_percentage" in errors <==> discountPercentage < 0 || discountPercentage > 80
    ensures errors.Keys <= {"products", "dicount_percentage"}
  {
    var e1 := AddIf(map[], saved && productCount == 0, "products", ComboWithoutProducts);
    AddIf(e1, discountPercentage < 0 || discountPercentage > 80, "dicount_percentage", ComboDiscountOutOfRange)
  }

  /** A combo discount that `Combo.clean` accepts is one `Combo.setDiscount` accepts, and the other way round. */
  lemma ComboCleanAgreesWithSetDiscount(name: string, description: string, price: int, pct: int)
    requires name != "" && description != "" && price > 0
    ensures ComboErrors(name, description, Some(price), false, 0, pct) == map[] <==> ComboDiscountAllowed(pct)
  {
    if !ComboDiscountAllowed(pct) {
      assert "dicount_percentage" in ComboErrors(name, description, Some(price), false, 0, pct);
    }
  }

  // ---------------------------------------------------------------------
  // Discounts and promotions
  // ---------------------------------------------------------------------

  predicate ProductDiscountAllowed(pct: int) { 0 <= pct <= 100 }

  predicate ComboDiscountAllowed(pct: int) { 0 <= pct <= 80 }

  /**
   * What the setters keep true of a product: the percentage is in range,
   * and a product that is not on promotion carries no discount.
   */
  predicate ProductPromotionConsistent(p: Product)
  {
    ProductDiscountAllowed(p.discountPercentage) && (!p.onPromotion ==> p.discountPercentage == 0)
  }

  predicate ComboPromotionConsistent(c: Combo)
  {
    ComboDiscountAllowed(c.discountPercentage) && (!c.onPromotion ==> c.discountPercentage == 0)
  }

  /** `setDiscount` of an allowed percentage: the percentage, and a promotion exactly when it is positive. */
  function WithDiscount(p: Product, pct: int): (r: Product)
    requires ProductDiscountAllowed(pct)
    ensures r.discountPercentage == pct && (r.onPromotion <==> pct > 0)
    ensures r.(discountPercentage := p.discountPercentage, onPromotion := p.onPromotion) == p
    ensures ProductPromotionConsistent(r)
  {
    p.(discountPercentage := pct, onPromotion := pct > 0)
  }

  /** `setPromotion`: switching the promotion off also clears the discount; switching it on keeps it. */
  function WithPromotion(p: Product, on: bool): (r: Product)
    ensures r.onPromotion == on
    ensures on ==> r.discountPercentage == p.discountPercentage
    ensures !on ==> r.discountPercentage == 0
    ensures r.(discountPercentage := p.discountPercentage, onPromotion := p.onPromotion) == p
  {
    p.(onPromotion := on, discountPercentage := if on then p.discountPercentage else 0)
  }

  /** Every setter keeps a consistent product consistent. */
  lemma WithPromotionConsistent(p: Product, on: bool)
    requires ProductPromotionConsistent(p)
    ensures ProductPromotionConsistent(WithPromotion(p, on))
  {
  }

  /** `unSetPromotion` is `setPromotion(False)`; doing either twice changes nothing more. */
  lemma UnSetPromotionIsSetPromotionFalse(p: Product)
    ensures WithPromotion(WithPromotion(p, false), false) == WithPromotion(p, false)
    ensures !WithPromotion(p, false).onPromotion && WithPromotion(p, false).discountPercentage == 0
  {
  }

  /** Setting a zero discount takes the product off promotion. */
  lemma ZeroDiscountEndsPromotion(p: Product)
    ensures WithDiscount(p, 0) == WithPromotion(p, false)
  {
  }

  /** `Product.update`: a name, description, price or quantity replaces the old one only when truthy (not None, "" or 0). */
  function ProductUpdated(p: Product, name: Option<string>, description: Option<string>, price: Option<int>, quantity: Option<int>)
    : (r: Product)
    ensures r.name == OrText(name, p.name) && r.description == OrText(description, p.description)
    ensures r.price == OrNumber(price, p.price) && r.quantity == OrNumber(quantity, p.quantity)
    ensures r.(name := p.name, description := p.description, price := p.price, quantity := p.quantity) == p
  {
    p.(name := OrText(name, p.name), description := OrText(description, p.description),
       price := OrNumber(price, p.price), quantity := OrNumber(quantity, p.quantity))
  }

  /** `update` cannot set a price or a quantity to zero: zero keeps the old value. */
  lemma UpdateCannotZero(p: Product)
    ensures ProductUpdated(p, None, None, Some(0), Some(0)) == p
  {
  }

  /** `Category.update`: the active flag replaced when given, name and description when truthy. */
  function CategoryUpdated(c: Category, name: Option<string>, description: Option<string>, isActive: Option<bool>)
    : (r: Category)
    ensures r.id == c.id
    ensures r.name == OrText(name, c.name) && r.description == OrText(description, c.description)
    ensures r.isActive == ValueOr(isActive, c.isActive)
  {
    Category(c.id, OrText(name, c.name), OrText(description, c.description), ValueOr(isActive, c.isActive))
  }

  /** `Rating.update`: title and text replaced when truthy, the rating whenever it is not None, zero included. */
  function RatingUpdated(r0: ProductRating, title: Option<string>, text: Option<string>, rating: Option<int>)
    : (r: ProductRating)
    ensures r.title == OrText(title, r0.title) && r.text == OrText(text, r0.text)
    ensures r.rating == ValueOr(rating, r0.rating)
    ensures r.product == r0.product && r.user == r0.user
  {
    r0.(title := OrText(title, r0.title), text := OrText(text, r0.text), rating := ValueOr(rating, r0.rating))
  }

  /** Unlike `new`, `update` stores a rating of 0, which validation would refuse. */
  lemma RatingUpdateSkipsValidation(r0: ProductRating)
    ensures RatingUpdated(r0, None, None, Some(0)).rating == 0
    ensures "rating" in RatingErrors(r0.title, r0.text, 0)
  {
  }

  // ---------------------------------------------------------------------
  // Combo price
  // ---------------------------------------------------------------------

  function Sum(s: seq<int>): int
  {
    if s == [] then 0 else s[0] + Sum(s[1..])
  }

  /** Every element between lo and hi puts the sum between |s|·lo and |s|·hi. */
  lemma {:induction false} SumBounds(s: seq<int>, lo: int, hi: int)
    requires forall x :: x in s ==> lo <= x <= hi
    ensures |s| * lo <= Sum(s) <= |s| * hi
  {
    if s != [] {
      assert s[0] in s;
      assert forall x :: x in s[1..] ==> x in s;
      SumBounds(s[1..], lo, hi);
      OneMore(|s[1..]|, lo);
      OneMore(|s[1..]|, hi);
    }
  }

  lemma OneMore(n: int, x: int)
    ensures (n + 1) * x == n * x + x
  {
  }

  /**
   * `CalculateComboPrice`: the average price of the combo's products; an
   * error when it has none. The average here is the exact quotient;
   * Python's Decimal division rounds it to 28 significant digits.
   */
  function ComboAveragePrice(prices: seq<int>): (r: Result<real, string>)
    ensures r.Err? <==> prices == []
    ensures r.Ok? ==> r.value * (|prices| as real) == Sum(prices) as real
  {
    if prices == [] then Err("Sin productos para calcular")
    else Ok(Sum(prices) as real / |prices| as real)
  }

  /** Converting a product of integers to a real multiplies the converted factors. */
  lemma RealProduct(a: int, b: int)
    ensures (a * b) as real == a as real * b as real
  {
  }

  /** A quotient by a positive count lies between lo and hi when the dividend lies between count·lo and count·hi. */
  lemma QuotientBetween(total: real, n: real, lo: real, hi: real)
    requires n > 0.0 && n * lo <= total <= n * hi
    ensures lo <= total / n <= hi
  {
    var q := total / n;
    assert q * n == total;
  }

  /** The combo's price lies between the cheapest and the dearest of its products. */
  lemma ComboAverageBetween(prices: seq<int>, lo: int, hi: int)
    requires prices != []
    requires forall x :: x in prices ==> lo <= x <= hi
    ensures ComboAveragePrice(prices).Ok?
    ensures lo as real <= ComboAveragePrice(prices).value <= hi as real
  {
    SumBounds(prices, lo, hi);
    RealProduct(|prices|, lo);
    RealProduct(|prices|, hi);
    QuotientBetween(Sum(prices) as real, |prices| as real, lo as real, hi as real);
  }

  // ---------------------------------------------------------------------
  // Discounted price
  // ---------------------------------------------------------------------

  /**
   * `Product.discounted_price` as written: the discount is the percentage
   * divided by 80, applied to the price. Prices are exact reals here.
   */
  function ProductDiscountedPriceAsWritten(p: Product): (r: real)
    ensures !(p.onPromotion && p.discountPercentage > 0) ==> r == p.price as real
    ensures p.onPromotion && p.discountPercentage > 0 ==> r * 80.0 == (p.price * (80 - p.discountPercentage)) as real
  {
    if p.onPromotion && p.discountPercentage > 0
    then (p.price * (80 - p.discountPercentage)) as real / 80.0
    else p.price as real
  }

  /** A product at the full discount its setter allows is sold at a negative price. */
  lemma ProductDiscountAsWrittenGoesNegative()
    ensures var p := Product(1, "Pizza", "Muzzarella", 1000, 1, None, true, 100, true);
      ProductPromotionConsistent(p) && ProductDiscountedPriceAsWritten(p) == -250.0
  {
  }

  lemma ScaledWithin(price: int, keep: int)
    ensures 0 <= price && 0 <= keep <= 100 ==> 0 <= price * keep <= price * 100
  {
    if 0 <= price && 0 <= keep <= 100 {
      assert price * keep <= price * 100 by {
        assert price * (100 - keep) >= 0;
      }
    }
  }

  /**
   * The discounted price with the percentage read as a percentage, as the
   * combo's price reads it: never negative and never above the price.
   */
  function ProductDiscountedPrice(p: Product): (r: real)
    ensures !(p.onPromotion && p.discountPercentage > 0) ==> r == p.price as real
    ensures p.onPromotion && p.discountPercentage > 0 ==> r * 100.0 == (p.price * (100 - p.discountPercentage)) as real
    ensures ProductPromotionConsistent(p) && p.price >= 0 ==> 0.0 <= r <= p.price as real
  {
    if p.onPromotion && p.discountPercentage > 0
    then
      ScaledWithin(p.price, 100 - p.discountPercentage);
      (p.price * (100 - p.discountPercentage)) as real / 100.0
    else p.price as real
  }

  /** `Combo.discounted_price`: the percentage divided by 100. */
  function ComboDiscountedPrice(c: Combo): (r: real)
    ensures !(c.onPromotion && c.discountPercentage > 0) ==> r == c.price as real
    ensures c.onPromotion && c.discountPercentage > 0 ==> r * 100.0 == (c.price * (100 - c.discountPercentage)) as real
    ensures ComboPromotionConsistent(c) && c.price >= 0 ==> 0.0 <= r <= c.price as real
  {
    if c.onPromotion && c.discountPercentage > 0
    then
      ScaledWithin(c.price, 100 - c.discountPercentage);
      (c.price * (100 - c.discountPercentage)) as real / 100.0
    else c.price as real
  }

  // ---------------------------------------------------------------------
  // The tables
  // ---------------------------------------------------------------------

  /** The product table. */
  class Products {
    var rows: seq<Product>
    var nextId: int

    ghost predicate Valid()
      reads this
    {
      (forall i, j :: 0 <= i < j < |rows| ==> rows[i].id != rows[j].id) &&
      (forall i :: 0 <= i < |rows| ==> rows[i].id < nextId && ProductPromotionConsistent(rows[i]))
    }

    constructor ()
      ensures Valid() && rows == []
    {
      rows := [];
      nextId := 1;
    }

    /**
     * `Product.new`: on errors nothing is created and the errors are
     * returned; otherwise a product is created with no category, no
     * promotion and no discount. The image is not modelled.
     */
    method New(name: string, description: string, price: int, quantity: int)
      returns (created: bool, errors: Option<map<string, string>>)
      requires Valid()
      modifies this
      ensures Valid()
      ensures created <==> ProductErrors(name, description, price) == map[]
      ensures !created ==> errors == Some(ProductErrors(name, description, price)) && rows == old(rows)
      ensures created ==> errors.None?
      ensures created ==> rows == old(rows) + [Product(old(nextId), name, description, price, quantity, None, false, 0, true)]
    {
      var errs := ProductErrors(name, description, price);
      if |errs| > 0 {
        assert errs != map[];
        return false, Some(errs);
      }
      assert errs.Keys == {};
      rows := rows + [Product(nextId, name, description, price, quantity, None, false, 0, true)];
      nextId := nextId + 1;
      created, errors := true, None;
    }

    /** `Product.setDiscount`: a percentage outside 0..100 raises and changes nothing. */
    method SetDiscount(i: int, pct: int) returns (error: Option<string>)
      requires Valid() && 0 <= i < |rows|
      modifies this
      ensures Valid() && nextId == old(nextId)
      ensures error.Some? <==> !ProductDiscountAllowed(pct)
      ensures error.Some? ==> rows == old(rows)
      ensures error.None? ==> rows == old(rows)[i := WithDiscount(old(rows)[i], pct)]
    {
      if pct < 0 || pct > 100 {
        return Some("El porcentaje de descuento debe estar entre 0 y 100");
      }
      rows := rows[i := WithDiscount(rows[i], pct)];
      error := None;
    }

    /** `Product.setPromotion`. */
    method SetPromotion(i: int, on: bool)
      requires Valid() && 0 <= i < |rows|
      modifies this
      ensures Valid() && nextId == old(nextId)
      ensures rows == old(rows)[i := WithPromotion(old(rows)[i], on)]
    {
      WithPromotionConsistent(rows[i], on);
      rows := rows[i := WithPromotion(rows[i], on)];
    }

    /** `Product.unSetPromotion`: no promotion and no discount. */
    method UnSetPromotion(i: int)
      requires Valid() && 0 <= i < |rows|
      modifies this
      ensures Valid() && nextId == old(nextId)
      ensures rows == old(rows)[i := WithPromotion(old(rows)[i], false)]
      ensures !rows[i].onPromotion && rows[i].discountPercentage == 0
    {
      WithPromotionConsistent(rows[i], false);
      rows := rows[i := WithPromotion(rows[i], false)];
    }

    /** `Product.update`. */
    method Update(i: int, name: Option<string>, description: Option<string>, price: Option<int>, quantity: Option<int>)
      requires Valid() && 0 <= i < |rows|
      modifies this
      ensures Valid() && nextId == old(nextId)
      ensures rows == old(rows)[i := ProductUpdated(old(rows)[i], name, description, price, quantity)]
    {
      rows := rows[i := ProductUpdated(rows[i], name, description, price, quantity)];
    }
  }

  /** The category table. */
  class Categories {
    var rows: seq<Category>
    var nextId: int

    ghost predicate Valid()
      reads this
    {
      (forall i, j :: 0 <= i < j < |rows| ==> rows[i].id != rows[j].id) &&
      (forall i :: 0 <= i < |rows| ==> rows[i].id < nextId)
    }

    constructor ()
      ensures Valid() && rows == []
    {
      rows := [];
      nextId := 1;
    }

    /** `Category.new`: active by default; nothing created on errors. */
    method New(name: string, description: string) returns (created: bool, errors: Option<map<string, string>>)
      requires Valid()
      modifies this
      ensures Valid()
      ensures created <==> CategoryErrors(name, description) == map[]
      ensures !created ==> errors == Some(CategoryErrors(name, description)) && rows == old(rows)
      ensures created ==> errors.None?
      ensures created ==> rows == old(rows) + [Category(old(nextId), name, description, true)]
    {
      var errs := CategoryErrors(name, description);
      if |errs| > 0 {
        assert errs != map[];
        return false, Some(errs);
      }
      assert errs.Keys == {};
      rows := rows + [Category(nextId, name, description, true)];
      nextId := nextId + 1;
      created, errors := true, None;
    }

    /** `Category.update`. */
    method Update(i: int, name: Option<string>, description: Option<string>, isActive: Option<bool>)
      requires Valid() && 0 <= i < |rows|
      modifies this
      ensures Valid() && nextId == old(nextId)
      ensures rows == old(rows)[i := CategoryUpdated(old(rows)[i], name, description, isActive)]
    {
      rows := rows[i := CategoryUpdated(rows[i], name, description, isActive)];
    }
  }

  /** The product review table. */
  class ProductRatings {
    var rows: seq<ProductRating>

    constructor ()
      ensures rows == []
    {
      rows := [];
    }

    /** `Rating.new`: nothing created on errors. */
    method New(title: string, text: string, rating: int, product: int, user: int)
      returns (created: bool, errors: Option<map<string, string>>)
      modifies this
      ensures created <==> RatingErrors(title, text, rating) == map[]
      ensures !created ==> errors == Some(RatingErrors(title, text, rating)) && rows == old(rows)
      ensures created ==> errors.None? && rows == old(rows) + [ProductRating(title, text, rating, product, user)]
    {
      var errs := RatingErrors(title, text, rating);
      if |errs| > 0 {
        assert errs != map[];
        return false, Some(errs);
      }
      assert errs.Keys == {};
      rows := rows + [ProductRating(title, text, rating, product, user)];
      created, errors := true, None;
    }

    /** `Rating.update`. */
    method Update(i: int, title: Option<string>, text: Option<string>, rating: Option<int>)
      requires 0 <= i < |rows|
      modifies this
      ensures rows == old(rows)[i := RatingUpdated(old(rows)[i], title, text, rating)]
    {
      rows := rows[i := RatingUpdated(rows[i], title, text, rating)];
    }
  }

  /** The combo table. */
  class Combos {
    var rows: seq<Combo>

    ghost predicate Valid()
      reads this
    {
      forall i :: 0 <= i < |rows| ==> ComboPromotionConsistent(rows[i])
    }

    constructor ()
      ensures Valid() && rows == []
    {
      rows := [];
    }

    /** `Combo.setDiscount`: a percentage outside 0..80 raises and changes nothing. */
    method SetDiscount(i: int, pct: int) returns (error: Option<string>)
      requires Valid() && 0 <= i < |rows|
      modifies this
      ensures Valid()
      ensures error.Some? <==> !ComboDiscountAllowed(pct)
      ensures error.Some? ==> rows == old(rows)
      ensures error.None? ==> rows == old(rows)[i := old(rows)[i].(discountPercentage := pct, onPromotion := pct > 0)]
    {
      if pct < 0 || pct > 80 {
        return Some("El porcentaje de descuento debe estar entre 0 y 80");
      }
      rows := rows[i := rows[i].(discountPercentage := pct, onPromotion := pct > 0)];
      error := None;
    }

    /** `Combo.setPromotion`: switching off clears the discount. */
    method SetPromotion(i: int, on: bool)
      requires Valid() && 0 <= i < |rows|
      modifies this
      ensures Valid()
      ensures rows == old(rows)[i := old(rows)[i].(onPromotion := on, discountPercentage := if on then old(rows)[i].discountPercentage else 0)]
    {
      rows := rows[i := rows[i].(onPromotion := on, discountPercentage := if on then rows[i].discountPercentage else 0)];
    }
  }
}
