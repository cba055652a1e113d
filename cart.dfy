/** The shopping cart of main.py: a dictionary from product id to quantity,
    changed by the add / increase / decrease / remove / clear buttons, and the
    order total that show_cart, refresh_cart_message, checkout and
    process_address each compute with the same loop. */
module Carts {

  type ProductId = int

  /** What the catalog store's get_product reports about a product that still
      exists: its unit price and its category id. */
  datatype Product = Product(price: int, category: string)

  /** The catalog store seen as a partial map: an id that is missing is a
      product get_product no longer finds. */
  type Catalog = map<ProductId, Product>

  /** `user_data[user_id]['cart']`. */
  type Cart = map<ProductId, int>

  /** The invariant the cart buttons keep: no entry holds a zero or negative
      quantity; removing the last unit deletes the entry instead. */
  ghost predicate Positive(c: Cart) {
    forall p :: p in c ==> c[p] >= 1
  }

  /** `cart.get(p, 0)`. */
  function QuantityOf(c: Cart, p: ProductId): int {
    if p in c then c[p] else 0
  }

  // ---------------------------------------------------------------------
  // The cart buttons
  // ---------------------------------------------------------------------

  /** `add_<id>`: the product enters at quantity 1 only when it is absent; a
      product already in the cart keeps its quantity (main.py:649-650). */
  function Add(c: Cart, p: ProductId): (r: Cart)
    ensures p in r && r - {p} == c - {p}
    ensures p in c ==> r[p] == c[p]
    ensures p !in c ==> r[p] == 1
    ensures Positive(c) ==> Positive(r)
  {
    if p in c then c else c[p := 1]
  }

  /** `increase_<id>`: one more unit, an absent product counting as 0
      (main.py:699). */
  function Increase(c: Cart, p: ProductId): (r: Cart)
    ensures p in r && r - {p} == c - {p}
    ensures r[p] == QuantityOf(c, p) + 1
    ensures Positive(c) ==> Positive(r)
  {
    c[p := QuantityOf(c, p) + 1]
  }

  /** `inc_item_<id>`: one more unit of a product that is already in the cart;
      any other id leaves the cart as it is (main.py:404-406). */
  function IncreaseIfPresent(c: Cart, p: ProductId): (r: Cart)
    ensures r.Keys == c.Keys && r - {p} == c - {p}
    ensures p in c ==> r[p] == c[p] + 1
    ensures Positive(c) ==> Positive(r)
  {
    if p in c then c[p := c[p] + 1] else c
  }

  /** `decrease_<id>` and `dec_item_<id>`: one unit less; the entry is deleted
      when it holds one unit, and an absent product is left alone
      (main.py:711-716, main.py:382-388). */
  function Decrease(c: Cart, p: ProductId): (r: Cart)
    ensures r - {p} == c - {p}
    ensures p in c && c[p] > 1 ==> p in r && r[p] == c[p] - 1
    ensures p in c && c[p] <= 1 ==> p !in r
    ensures p !in c ==> r == c
    ensures Positive(c) ==> Positive(r)
  {
    if p in c then
      if c[p] > 1 then c[p := c[p] - 1] else c - {p}
    else c
  }

  /** `del_item_<id>`: the entry disappears, whatever its quantity
      (main.py:421-423). */
  function Remove(c: Cart, p: ProductId): (r: Cart)
    ensures p !in r && r - {p} == c - {p}
    ensures Positive(c) ==> Positive(r)
  {
    c - {p}
  }

  /** Pressing "add" twice leaves the quantity at 1. */
  lemma AddTwice(c: Cart, p: ProductId)
    ensures Add(Add(c, p), p) == Add(c, p)
    ensures p !in c ==> Add(Add(c, p), p)[p] == 1
  {
  }

  /** "-" undoes "+". */
  lemma DecreaseUndoesIncrease(c: Cart, p: ProductId)
    requires Positive(c)
    ensures Decrease(Increase(c, p), p) == c
  {
    var r := Decrease(Increase(c, p), p);
    if p in c {
      assert r == c[p := c[p]];
    } else {
      assert r.Keys == c.Keys;
    }
  }

  /** "+" undoes "-" on a product that is in the cart. */
  lemma IncreaseUndoesDecrease(c: Cart, p: ProductId)
    requires Positive(c) && p in c
    ensures Increase(Decrease(c, p), p) == c
  {
    var r := Increase(Decrease(c, p), p);
    assert r.Keys == c.Keys;
  }

  /** "-" on the last unit is the same as "remove". */
  lemma DecreaseLastIsRemove(c: Cart, p: ProductId)
    requires p in c && c[p] == 1
    ensures Decrease(c, p) == Remove(c, p)
  {
  }

  // ---------------------------------------------------------------------
  // Any run of "+" and "-" presses on one product
  // ---------------------------------------------------------------------

  datatype Press = Plus | Minus

  function Press1(c: Cart, p: ProductId, b: Press): Cart {
    match b
    case Plus => Increase(c, p)
    case Minus => Decrease(c, p)
  }

  /** The cart after pressing the buttons in `presses`, in order. */
  function Run(c: Cart, p: ProductId, presses: seq<Press>): Cart
    decreases |presses|
  {
    if presses == [] then c else Run(Press1(c, p, presses[0]), p, presses[1..])
  }

  /** A counter that saturates at zero: the quantity the shopper expects. */
  function Counter(q: nat, presses: seq<Press>): nat
    decreases |presses|
  {
    if presses == [] then q
    else Counter(if presses[0] == Plus then q + 1 else if q > 0 then q - 1 else 0, presses[1..])
  }

  /** Whatever the presses, the cart keeps only positive quantities, the
      product's quantity is that of the saturating counter (so after the last
      unit goes the product is absent, not stored with 0), and no other entry
      changes. */
  lemma {:induction false} RunIsCounter(c: Cart, p: ProductId, presses: seq<Press>)
    requires Positive(c)
    ensures Positive(Run(c, p, presses))
    ensures QuantityOf(Run(c, p, presses), p) == Counter(QuantityOf(c, p), presses)
    ensures Run(c, p, presses) - {p} == c - {p}
    decreases |presses|
  {
    if presses != [] {
      var c1 := Press1(c, p, presses[0]);
      RunIsCounter(c1, p, presses[1..]);
    }
  }

  // ---------------------------------------------------------------------
  // The order total
  // ---------------------------------------------------------------------

  /** What one cart line adds to the total: quantity times the current price,
      or nothing when get_product no longer finds the product. */
  function LineTotal(c: Cart, catalog: Catalog, p: ProductId): int
    requires p in c
  {
    if p in catalog then c[p] * catalog[p].price else 0
  }

  /** The current unit price, 0 for a product that no longer resolves. */
  function UnitPrice(catalog: Catalog, p: ProductId): int {
    if p in catalog then catalog[p].price else 0
  }

  ghost function Pick(keys: set<ProductId>): (p: ProductId)
    requires keys != {}
    ensures p in keys
  {
    NonEmptyHasMember(keys);
    var p :| p in keys; p
  }

  lemma NonEmptyHasMember(keys: set<ProductId>)
    requires keys != {}
    ensures exists p :: p in keys
  {
    assert (forall p :: p !in keys) ==> keys == {};
  }

  /** The sum of the lines of `keys`, taken in no particular order. */
  ghost function SumLines(keys: set<ProductId>, c: Cart, catalog: Catalog): int
    requires keys <= c.Keys
    decreases keys
  {
    if keys == {} then 0
    else
      var p := Pick(keys);
      LineTotal(c, catalog, p) + SumLines(keys - {p}, c, catalog)
  }

  /** The cart total: the sum over all entries of quantity times price, the
      entries whose product no longer resolves contributing nothing. */
  ghost function Total(c: Cart, catalog: Catalog): int {
    SumLines(c.Keys, c, catalog)
  }

  /** Any line can be taken out of the sum first: the total does not depend on
      the order in which the dictionary is walked. */
  lemma {:induction false} SumLinesRemove(keys: set<ProductId>, c: Cart, catalog: Catalog, p: ProductId)
    requires keys <= c.Keys && p in keys
    ensures SumLines(keys, c, catalog) == LineTotal(c, catalog, p) + SumLines(keys - {p}, c, catalog)
    decreases keys
  {
    var q := Pick(keys);
    if p != q {
      SumLinesRemove(keys - {q}, c, catalog, p);
      SumLinesRemove(keys - {p}, c, catalog, q);
      assert keys - {q} - {p} == keys - {p} - {q};
    }
  }

  /** Two carts with the same quantities on `keys` have the same sum there. */
  lemma {:induction false} SumLinesAgree(keys: set<ProductId>, c: Cart, d: Cart, catalog: Catalog)
    requires keys <= c.Keys && keys <= d.Keys
    requires forall q :: q in keys ==> c[q] == d[q]
    ensures SumLines(keys, c, catalog) == SumLines(keys, d, catalog)
    decreases keys
  {
    if keys != {} {
      var p := Pick(keys);
      SumLinesAgree(keys - {p}, c, d, catalog);
    }
  }

  /** Lines whose product does not resolve can be dropped from the sum. */
  lemma {:induction false} SumLinesResolved(keys: set<ProductId>, c: Cart, catalog: Catalog)
    requires keys <= c.Keys
    ensures SumLines(keys, c, catalog) == SumLines(keys * catalog.Keys, c, catalog)
    decreases keys
  {
    if keys != {} {
      var p := Pick(keys);
      SumLinesResolved(keys - {p}, c, catalog);
      assert (keys - {p}) * catalog.Keys == keys * catalog.Keys - {p};
      if p in catalog {
        SumLinesRemove(keys * catalog.Keys, c, catalog, p);
      } else {
        assert keys * catalog.Keys - {p} == keys * catalog.Keys;
      }
    }
  }

  /** The entries of a cart whose product still resolves. */
  function Resolved(c: Cart, catalog: Catalog): (r: Cart)
    ensures r.Keys == c.Keys * catalog.Keys
    ensures forall p :: p in r ==> r[p] == c[p]
  {
    map p | p in c && p in catalog :: c[p]
  }

  /** The total is the total of the resolved entries alone. */
  lemma TotalIgnoresUnresolved(c: Cart, catalog: Catalog)
    ensures Total(c, catalog) == Total(Resolved(c, catalog), catalog)
  {
    var r := Resolved(c, catalog);
    SumLinesResolved(c.Keys, c, catalog);
    SumLinesAgree(c.Keys * catalog.Keys, c, r, catalog);
  }

  /** Entries for products that no longer resolve leave the total unchanged. */
  lemma TotalUnaffectedByStale(c: Cart, stale: Cart, catalog: Catalog)
    requires stale.Keys !! catalog.Keys
    ensures Total(c + stale, catalog) == Total(c, catalog)
  {
    TotalIgnoresUnresolved(c + stale, catalog);
    TotalIgnoresUnresolved(c, catalog);
    assert Resolved(c + stale, catalog) == Resolved(c, catalog);
  }

  lemma TotalEmpty(catalog: Catalog)
    ensures Total(map[], catalog) == 0
  {
  }

  /** The total after "+" grows by one unit price. */
  lemma TotalIncrease(c: Cart, catalog: Catalog, p: ProductId)
    ensures Total(Increase(c, p), catalog) == Total(c, catalog) + UnitPrice(catalog, p)
  {
    var r := Increase(c, p);
    SumLinesRemove(r.Keys, r, catalog, p);
    SumLinesAgree(c.Keys - {p}, c, r, catalog);
    if p in c {
      SumLinesRemove(c.Keys, c, catalog, p);
      assert r.Keys - {p} == c.Keys - {p};
      if p in catalog {
        assert (c[p] + 1) * catalog[p].price == c[p] * catalog[p].price + catalog[p].price;
      }
    } else {
      assert r.Keys - {p} == c.Keys;
      assert c.Keys - {p} == c.Keys;
      assert LineTotal(r, catalog, p) == UnitPrice(catalog, p);
    }
  }

  /** The total after "add" grows by one unit price when the product was absent,
      and is unchanged otherwise. */
  lemma TotalAdd(c: Cart, catalog: Catalog, p: ProductId)
    ensures Total(Add(c, p), catalog) == Total(c, catalog) + (if p in c then 0 else UnitPrice(catalog, p))
  {
    if p !in c {
      TotalIncrease(c, catalog, p);
    }
  }

  /** The total after "remove" drops the product's line. */
  lemma TotalRemove(c: Cart, catalog: Catalog, p: ProductId)
    requires p in c
    ensures Total(Remove(c, p), catalog) == Total(c, catalog) - LineTotal(c, catalog, p)
  {
    var r := Remove(c, p);
    SumLinesRemove(c.Keys, c, catalog, p);
    assert r.Keys == c.Keys - {p};
    SumLinesAgree(r.Keys, c, r, catalog);
  }

  /** The total after "-" on a product in the cart drops by one unit price. */
  lemma TotalDecrease(c: Cart, catalog: Catalog, p: ProductId)
    requires Positive(c) && p in c
    ensures Total(Decrease(c, p), catalog) == Total(c, catalog) - UnitPrice(catalog, p)
  {
    IncreaseUndoesDecrease(c, p);
    TotalIncrease(Decrease(c, p), catalog, p);
  }

  /** Two units of a product at 100 and one at 50 make 250. */
  lemma TotalExample()
    ensures Total(map[1 := 2, 2 := 1], map[1 := Product(100, "A"), 2 := Product(50, "B")]) == 250
  {
    var c: Cart := map[1 := 2, 2 := 1];
    var catalog := map[1 := Product(100, "A"), 2 := Product(50, "B")];
    assert c.Keys == {1, 2};
    SumLinesRemove(c.Keys, c, catalog, 1);
    assert c.Keys - {1} == {2};
    SumLinesRemove({2}, c, catalog, 2);
    assert {2} - {2} == {};
  }

  /** The `for product_id, quantity in cart.items()` loop that the four cart
      screens share (main.py:193-198, 440-444, 778-782, 883-887). */
  method ComputeTotal(c: Cart, catalog: Catalog) returns (total: int)
    ensures total == Total(c, catalog)
  {
    total := 0;
    var rest := c.Keys;
    while rest != {}
      invariant rest <= c.Keys
      invariant total + SumLines(rest, c, catalog) == Total(c, catalog)
      decreases rest
    {
      NonEmptyHasMember(rest);
      var p :| p in rest;
      SumLinesRemove(rest, c, catalog, p);
      if p in catalog {
        total := total + c[p] * catalog[p].price;
      }
      rest := rest - {p};
    }
  }
}
