/**
 * Cart reconciliation in order placement: a client cart is matched against
 * the food records the store found for the cart's ids, and the total is
 * accumulated from the stored prices only.
 *
 * The handler's nested loop (found foods outer, cart lines inner) is
 * `MatchCart`; `Reconcile` and `Total` are the functions it is proved
 * against. `PricedLines` is an independent, cart-ordered reference: the
 * cart's entries whose id the catalog knows, each priced from the catalog.
 */
module Reconciliation {
  import opened Models

  function Subtotal(item: CartItem): int {
    item.food.price * item.unit
  }

  /** The sum of the line subtotals, added up in line order starting from 0. */
  function Total(items: seq<CartItem>): int {
    if items == [] then 0 else Total(items[..|items| - 1]) + Subtotal(items[|items| - 1])
  }

  /** The lines the inner loop pushes for one found food while it walks `cart`. */
  function LinesFor(food: Food, cart: seq<CartLine>): seq<CartItem> {
    if cart == [] then []
    else
      var line := cart[|cart| - 1];
      LinesFor(food, cart[..|cart| - 1]) + (if line.id == food.id then [CartItem(food, line.unit)] else [])
  }

  /** The lines the nested loop pushes: for each found food in turn, its matching cart lines in cart order. */
  function Reconcile(foods: seq<Food>, cart: seq<CartLine>): seq<CartItem> {
    if foods == [] then []
    else Reconcile(foods[..|foods| - 1], cart) + LinesFor(foods[|foods| - 1], cart)
  }

  /** The cart's entries whose id the catalog knows, in cart order, priced from the catalog. */
  function PricedLines(cart: seq<CartLine>, catalog: map<Id, Food>): seq<CartItem> {
    if cart == [] then []
    else
      var line := cart[|cart| - 1];
      PricedLines(cart[..|cart| - 1], catalog)
        + (if line.id in catalog then [CartItem(catalog[line.id], line.unit)] else [])
  }

  /** The number of cart entries whose id the catalog knows; a repeated id counts once per entry. */
  function ResolvableCount(cart: seq<CartLine>, catalog: map<Id, Food>): nat {
    if cart == [] then 0
    else ResolvableCount(cart[..|cart| - 1], catalog) + (if cart[|cart| - 1].id in catalog then 1 else 0)
  }

  predicate InCart(cart: seq<CartLine>, id: Id) {
    exists j :: 0 <= j < |cart| && cart[j].id == id
  }

  function FoodIds(foods: seq<Food>): set<Id> {
    set i | 0 <= i < |foods| :: foods[i].id
  }

  predicate DistinctIds(foods: seq<Food>) {
    forall i, k :: 0 <= i < k < |foods| ==> foods[i].id != foods[k].id
  }

  /**
   * What the store's `find` with `_id in (cart ids)` returns: records of the
   * catalog, each with an id from the cart, no id twice, and every cart id the
   * catalog knows among them, in an order the store chooses.
   */
  ghost predicate IsLookupResult(catalog: map<Id, Food>, cart: seq<CartLine>, foods: seq<Food>) {
    && Keyed(catalog)
    && (forall i :: 0 <= i < |foods| ==>
          foods[i].id in catalog && catalog[foods[i].id] == foods[i] && InCart(cart, foods[i].id))
    && DistinctIds(foods)
    && (forall j :: 0 <= j < |cart| && cart[j].id in catalog ==> cart[j].id in FoodIds(foods))
  }

  /** The lines restricted to ids in `ids`, in cart order, priced from the catalog. */
  function PricedIn(cart: seq<CartLine>, catalog: map<Id, Food>, ids: set<Id>): seq<CartItem> {
    if cart == [] then []
    else
      PricedIn(cart[..|cart| - 1], catalog, ids) + PricedTail(cart[|cart| - 1], catalog, ids)
  }

  lemma {:induction false} TotalAppend(a: seq<CartItem>, b: seq<CartItem>)
    ensures Total(a + b) == Total(a) + Total(b)
    decreases |b|
  {
    if b == [] {
      assert a + b == a;
    } else {
      var ab := a + b;
      assert ab[..|ab| - 1] == a + b[..|b| - 1];
      assert ab[|ab| - 1] == b[|b| - 1];
      TotalAppend(a, b[..|b| - 1]);
    }
  }

  /** The last cart line's catalog line, if its id is in the catalog and in `ids`. */
  function PricedTail(line: CartLine, catalog: map<Id, Food>, ids: set<Id>): seq<CartItem> {
    if line.id in catalog && line.id in ids then [CartItem(catalog[line.id], line.unit)] else []
  }

  lemma PricedTailExtend(line: CartLine, catalog: map<Id, Food>, ids: set<Id>, x: Id)
    requires x in catalog && catalog[x].id == x && x !in ids
    ensures PricedTail(line, catalog, ids + {x})
         == PricedTail(line, catalog, ids) + (if line.id == catalog[x].id then [CartItem(catalog[x], line.unit)] else [])
  {
  }

  /** Adding one more found food `x` to the ids adds exactly that food's lines, as a bag. */
  lemma {:induction false} PricedInExtendBag(cart: seq<CartLine>, catalog: map<Id, Food>, ids: set<Id>, x: Id)
    requires x in catalog && catalog[x].id == x && x !in ids
    ensures multiset(PricedIn(cart, catalog, ids + {x}))
         == multiset(PricedIn(cart, catalog, ids)) + multiset(LinesFor(catalog[x], cart))
  {
    if cart != [] {
      var init := cart[..|cart| - 1];
      var line := cart[|cart| - 1];
      var food := catalog[x];
      PricedInExtendBag(init, catalog, ids, x);
      PricedTailExtend(line, catalog, ids, x);
      assert PricedIn(cart, catalog, ids + {x}) == PricedIn(init, catalog, ids + {x}) + PricedTail(line, catalog, ids + {x});
      assert PricedIn(cart, catalog, ids) == PricedIn(init, catalog, ids) + PricedTail(line, catalog, ids);
      assert LinesFor(food, cart)
          == LinesFor(food, init) + (if line.id == food.id then [CartItem(food, line.unit)] else []);
    }
  }

  /** Adding one more found food `x` to the ids adds exactly that food's lines to the total. */
  lemma {:induction false} PricedInExtendTotal(cart: seq<CartLine>, catalog: map<Id, Food>, ids: set<Id>, x: Id)
    requires x in catalog && catalog[x].id == x && x !in ids
    ensures Total(PricedIn(cart, catalog, ids + {x}))
         == Total(PricedIn(cart, catalog, ids)) + Total(LinesFor(catalog[x], cart))
  {
    if cart != [] {
      var init := cart[..|cart| - 1];
      var line := cart[|cart| - 1];
      var food := catalog[x];
      PricedInExtendTotal(init, catalog, ids, x);
      var tailWith := PricedTail(line, catalog, ids + {x});
      var tailWithout := PricedTail(line, catalog, ids);
      var tailFood := if line.id == food.id then [CartItem(food, line.unit)] else [];
      PricedTailExtend(line, catalog, ids, x);
      var withX := PricedIn(init, catalog, ids + {x});
      var withoutX := PricedIn(init, catalog, ids);
      var own := LinesFor(food, init);
      assert PricedIn(cart, catalog, ids + {x}) == withX + tailWith;
      assert PricedIn(cart, catalog, ids) == withoutX + tailWithout;
      assert LinesFor(food, cart) == own + tailFood;
      TotalAppend(withX, tailWith);
      TotalAppend(withoutX, tailWithout);
      TotalAppend(own, tailFood);
      TotalAppend(tailWithout, tailFood);
    }
  }

  /** The nested loop's lines are, as a bag and in value, the cart lines of the found ids in cart order. */
  lemma {:induction false} ReconcileIsPricedIn(foods: seq<Food>, cart: seq<CartLine>, catalog: map<Id, Food>)
    requires forall i :: 0 <= i < |foods| ==> foods[i].id in catalog && catalog[foods[i].id] == foods[i]
    requires DistinctIds(foods)
    ensures multiset(Reconcile(foods, cart)) == multiset(PricedIn(cart, catalog, FoodIds(foods)))
    ensures Total(Reconcile(foods, cart)) == Total(PricedIn(cart, catalog, FoodIds(foods)))
  {
    if foods == [] {
      assert FoodIds(foods) == {};
      PricedInNone(cart, catalog);
    } else {
      var init := foods[..|foods| - 1];
      var f := foods[|foods| - 1];
      ReconcileIsPricedIn(init, cart, catalog);
      assert FoodIds(foods) == FoodIds(init) + {f.id} by {
        forall id | id in FoodIds(foods) ensures id in FoodIds(init) + {f.id} {
          var i :| 0 <= i < |foods| && foods[i].id == id;
          if i < |foods| - 1 { assert init[i] == foods[i]; }
        }
        forall id | id in FoodIds(init) ensures id in FoodIds(foods) {
          var i :| 0 <= i < |init| && init[i].id == id;
          assert foods[i] == init[i];
        }
      }
      assert f.id !in FoodIds(init);
      assert catalog[f.id] == f;
      PricedInExtendBag(cart, catalog, FoodIds(init), f.id);
      PricedInExtendTotal(cart, catalog, FoodIds(init), f.id);
      TotalAppend(Reconcile(init, cart), LinesFor(f, cart));
    }
  }

  lemma {:induction false} PricedInNone(cart: seq<CartLine>, catalog: map<Id, Food>)
    ensures PricedIn(cart, catalog, {}) == []
  {
    if cart != [] {
      PricedInNone(cart[..|cart| - 1], catalog);
    }
  }

  /** Restricting to a set of ids that holds every cart id the catalog knows changes nothing. */
  lemma {:induction false} PricedInAll(cart: seq<CartLine>, catalog: map<Id, Food>, ids: set<Id>)
    requires forall j :: 0 <= j < |cart| && cart[j].id in catalog ==> cart[j].id in ids
    ensures PricedIn(cart, catalog, ids) == PricedLines(cart, catalog)
  {
    if cart != [] {
      var init := cart[..|cart| - 1];
      assert forall j :: 0 <= j < |init| ==> init[j] == cart[j];
      PricedInAll(init, catalog, ids);
    }
  }

  /**
   * Whatever order the store returns the found foods in, the nested loop
   * produces exactly the cart's resolvable entries priced from the catalog
   * (the same bag of lines, so the same number of lines), and the same total.
   */
  lemma ReconcileMatchesCart(foods: seq<Food>, cart: seq<CartLine>, catalog: map<Id, Food>)
    requires IsLookupResult(catalog, cart, foods)
    ensures multiset(Reconcile(foods, cart)) == multiset(PricedLines(cart, catalog))
    ensures |Reconcile(foods, cart)| == |PricedLines(cart, catalog)|
    ensures Total(Reconcile(foods, cart)) == Total(PricedLines(cart, catalog))
  {
    ReconcileIsPricedIn(foods, cart, catalog);
    PricedInAll(cart, catalog, FoodIds(foods));
    assert |Reconcile(foods, cart)| == |multiset(Reconcile(foods, cart))|;
    assert |PricedLines(cart, catalog)| == |multiset(PricedLines(cart, catalog))|;
  }

  /**
   * Each reference line is the catalog record of some cart entry with that
   * entry's unit count; there is one line per resolvable cart entry, and
   * none at all exactly when no cart id is in the catalog.
   */
  lemma {:induction false} PricedLinesFromCatalog(cart: seq<CartLine>, catalog: map<Id, Food>)
    ensures |PricedLines(cart, catalog)| == ResolvableCount(cart, catalog)
    ensures forall k :: 0 <= k < |PricedLines(cart, catalog)| ==>
      exists j :: 0 <= j < |cart| && cart[j].id in catalog
        && PricedLines(cart, catalog)[k] == CartItem(catalog[cart[j].id], cart[j].unit)
    ensures PricedLines(cart, catalog) == [] <==> forall j :: 0 <= j < |cart| ==> cart[j].id !in catalog
  {
    if cart != [] {
      var init := cart[..|cart| - 1];
      var line := cart[|cart| - 1];
      PricedLinesFromCatalog(init, catalog);
      var p := PricedLines(cart, catalog);
      var q := PricedLines(init, catalog);
      forall k | 0 <= k < |p|
        ensures exists j :: (0 <= j < |cart| && cart[j].id in catalog
                              && p[k] == CartItem(catalog[cart[j].id], cart[j].unit))
      {
        if k < |q| {
          var j :| 0 <= j < |init| && init[j].id in catalog && q[k] == CartItem(catalog[init[j].id], init[j].unit);
          assert cart[j] == init[j];
        } else {
          assert cart[|cart| - 1] == line;
        }
      }
      if line.id !in catalog {
        assert (forall j :: 0 <= j < |cart| ==> cart[j].id !in catalog)
           <==> (forall j :: 0 <= j < |init| ==> init[j].id !in catalog) by {
          assert forall j :: 0 <= j < |init| ==> init[j] == cart[j];
        }
      }
    }
  }

  /** Every line the nested loop produces is a found catalog record with the unit count of a cart entry bearing its id. */
  lemma {:induction false} ReconcileItemsFromCatalog(foods: seq<Food>, cart: seq<CartLine>, catalog: map<Id, Food>)
    requires IsLookupResult(catalog, cart, foods)
    ensures forall k :: 0 <= k < |Reconcile(foods, cart)| ==>
      var item := Reconcile(foods, cart)[k];
      && item.food.id in catalog && item.food == catalog[item.food.id]
      && exists j :: 0 <= j < |cart| && cart[j].id == item.food.id && cart[j].unit == item.unit
  {
    ReconcileMatchesCart(foods, cart, catalog);
    PricedLinesFromCatalog(cart, catalog);
    var r := Reconcile(foods, cart);
    var p := PricedLines(cart, catalog);
    forall k | 0 <= k < |r|
      ensures r[k].food.id in catalog && r[k].food == catalog[r[k].food.id]
      ensures exists j :: 0 <= j < |cart| && cart[j].id == r[k].food.id && cart[j].unit == r[k].unit
    {
      assert r[k] in multiset(r);
      assert r[k] in p;
      var m :| 0 <= m < |p| && p[m] == r[k];
      var j :| 0 <= j < |cart| && cart[j].id in catalog && p[m] == CartItem(catalog[cart[j].id], cart[j].unit);
      assert catalog[cart[j].id].id == cart[j].id;
    }
  }

  /**
   * What the order handler needs from a lookup result: the loop's lines are
   * the priced cart lines as a bag, with their total, and there are none
   * exactly when no cart id is in the catalog.
   */
  lemma MatchOutcome(foods: seq<Food>, cart: seq<CartLine>, catalog: map<Id, Food>)
    requires IsLookupResult(catalog, cart, foods)
    ensures multiset(Reconcile(foods, cart)) == multiset(PricedLines(cart, catalog))
    ensures Total(Reconcile(foods, cart)) == Total(PricedLines(cart, catalog))
    ensures Reconcile(foods, cart) == [] <==> forall j :: 0 <= j < |cart| ==> cart[j].id !in catalog
  {
    ReconcileMatchesCart(foods, cart, catalog);
    PricedLinesFromCatalog(cart, catalog);
  }

  /** The nested loop of the order handler: found foods outer, cart lines inner. */
  method MatchCart(foods: seq<Food>, cart: seq<CartLine>) returns (items: seq<CartItem>, netAmount: int)
    ensures items == Reconcile(foods, cart)
    ensures netAmount == Total(items)
  {
    items, netAmount := [], 0;
    for i := 0 to |foods|
      invariant items == Reconcile(foods[..i], cart)
      invariant netAmount == Total(items)
    {
      var food := foods[i];
      ghost var before := items;
      for j := 0 to |cart|
        invariant items == before + LinesFor(food, cart[..j])
        invariant netAmount == Total(items)
      {
        var line := cart[j];
        assert cart[..j + 1][..j] == cart[..j];
        if food.id == line.id {
          netAmount := netAmount + food.price * line.unit;
          assert Total(items + [CartItem(food, line.unit)]) == Total(items) + Subtotal(CartItem(food, line.unit)) by {
            assert (items + [CartItem(food, line.unit)])[..|items|] == items;
          }
          items := items + [CartItem(food, line.unit)];
        }
      }
      assert cart[..|cart|] == cart;
      assert foods[..i + 1][..i] == foods[..i];
    }
    assert foods[..|foods|] == foods;
  }
}
