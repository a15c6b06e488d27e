/**
 * The shopping handlers: the vendors serving a pincode (all of them, or the
 * ten best rated) and the foods those vendors can have ready in 30 minutes.
 * `vendors` is the vendor collection in storage order, each document with
 * its foods populated; the query filter, sort and limit are modelled as
 * functions over it, and the collecting loop as a method.
 */
module ShoppingController {
  import opened Options
  import opened JsValues
  import opened Models

  datatype ShoppingResponse =
    | PincodeRequired
    | NoVendorsFound
    | FoodAvailable(vendors: seq<VendorDoc>)
    | VendorsFound(vendors: seq<VendorDoc>)
    | FoodsFound(foods: seq<Food>)
  {
    function Status(): int {
      match this
      case PincodeRequired => 400
      case NoVendorsFound => 404
      case FoodAvailable(_) => 200
      case VendorsFound(_) => 200
      case FoodsFound(_) => 200
    }

    function Message(): string {
      match this
      case PincodeRequired => "Pincode is required"
      case NoVendorsFound => "No vendors found for the given pincode"
      case FoodAvailable(_) => "Available food in your area"
      case VendorsFound(_) => "Available vendors in your area"
      case FoodsFound(_) => "Foods available in 30 minutes"
    }
  }

  // ------------------------------------------------------------- selection

  /** The query filter: the vendor is in the pincode and currently serving. */
  predicate Serves(v: VendorDoc, pincode: string) {
    v.pincode == pincode && v.serviceAvailability
  }

  /**
   * The vendors the query matches, in storage order: exactly the serving
   * vendors of the pincode, each as many times as the collection holds it.
   */
  function Candidates(vendors: seq<VendorDoc>, pincode: string): (r: seq<VendorDoc>)
    ensures forall v :: v in r <==> v in vendors && Serves(v, pincode)
    ensures forall v :: multiset(r)[v] == if Serves(v, pincode) then multiset(vendors)[v] else 0
  {
    if vendors == [] then []
    else
      assert vendors == [vendors[0]] + vendors[1..];
      (if Serves(vendors[0], pincode) then [vendors[0]] else []) + Candidates(vendors[1..], pincode)
  }

  // --------------------------------------------------------------- ranking

  /** Highest rating first. */
  ghost predicate RatingSorted(s: seq<VendorDoc>) {
    forall i, j :: 0 <= i < j < |s| ==> s[i].rating >= s[j].rating
  }

  /** Inserts `v` into a list ranked by rating, ahead of the first vendor rated no higher. */
  function InsertByRating(v: VendorDoc, ranked: seq<VendorDoc>): (r: seq<VendorDoc>)
    ensures multiset(r) == multiset(ranked) + multiset{v}
    ensures RatingSorted(ranked) ==> RatingSorted(r)
  {
    if ranked == [] then [v]
    else if v.rating >= ranked[0].rating then [v] + ranked
    else
      var rest := InsertByRating(v, ranked[1..]);
      assert ranked == [ranked[0]] + ranked[1..];
      InsertKeepsHead(v, ranked, rest);
      [ranked[0]] + rest
  }

  /** The step of InsertByRating that goes past the head of the list. */
  lemma InsertKeepsHead(v: VendorDoc, ranked: seq<VendorDoc>, rest: seq<VendorDoc>)
    requires ranked != [] && v.rating < ranked[0].rating
    requires multiset(rest) == multiset(ranked[1..]) + multiset{v}
    requires RatingSorted(ranked[1..]) ==> RatingSorted(rest)
    ensures RatingSorted(ranked) ==> RatingSorted([ranked[0]] + rest)
  {
    if RatingSorted(ranked) {
      var r := [ranked[0]] + rest;
      forall i, j | 0 <= i < j < |r| ensures r[i].rating >= r[j].rating {
        var w := rest[j - 1];
        assert r[j] == w;
        assert w in multiset(rest);
        if w != v {
          assert w in ranked[1..];
          var k :| 0 <= k < |ranked[1..]| && ranked[1..][k] == w;
          assert ranked[k + 1] == w;
        }
        if i > 0 {
          assert r[i] == rest[i - 1];
        }
      }
    }
  }

  /**
   * The query's sort on rating, descending. The order among equally rated
   * vendors is not pinned down: any permutation sorted by rating is a valid
   * answer of the store, and the contract says no more than that.
   */
  function RankByRating(s: seq<VendorDoc>): (r: seq<VendorDoc>)
    ensures RatingSorted(r)
    ensures multiset(r) == multiset(s)
  {
    if s == [] then []
    else
      assert s == [s[0]] + s[1..];
      InsertByRating(s[0], RankByRating(s[1..]))
  }

  const TopLimit := 10

  /** The first `n` elements, or all of them when there are fewer. */
  function Limit(s: seq<VendorDoc>, n: nat): (r: seq<VendorDoc>)
    ensures |r| == if |s| < n then |s| else n
    ensures r <= s
  {
    if |s| <= n then s else s[..n]
  }

  /** Splitting a ranked list: everything after the cut is rated no higher than anything before it. */
  lemma RankedCut(s: seq<VendorDoc>, k: nat)
    requires RatingSorted(s)
    requires k <= |s|
    ensures RatingSorted(s[..k])
    ensures multiset(s) == multiset(s[..k]) + multiset(s[k..])
    ensures forall v, w :: v in multiset(s[k..]) && w in s[..k] ==> v.rating <= w.rating
  {
    assert s == s[..k] + s[k..];
    forall v, w | v in multiset(s[k..]) && w in s[..k] ensures v.rating <= w.rating {
      assert v in s[k..];
      var j :| 0 <= j < |s[k..]| && s[k..][j] == v;
      var i :| 0 <= i < k && s[..k][i] == w;
      assert s[i] == w && s[k + j] == v;
    }
  }

  // -------------------------------------------------------------- handlers

  /**
   * GetFoodAvailability: a missing or empty pincode is rejected before the
   * query; otherwise every matching vendor is returned, highest rated first,
   * or 404 when none matches.
   */
  function GetFoodAvailability(pincode: Option<string>, vendors: seq<VendorDoc>): (r: ShoppingResponse)
    ensures r == PincodeRequired <==> !Truthy(pincode)
    ensures r == NoVendorsFound <==>
      Truthy(pincode) && forall v :: v in vendors ==> !Serves(v, pincode.value)
    ensures r.FoodAvailable? ==>
      && r.vendors != []
      && RatingSorted(r.vendors)
      && multiset(r.vendors) == multiset(Candidates(vendors, pincode.value))
    ensures r.PincodeRequired? || r.NoVendorsFound? || r.FoodAvailable?
  {
    if !Truthy(pincode) then PincodeRequired
    else
      var found := RankByRating(Candidates(vendors, pincode.value));
      if |found| > 0 then FoodAvailable(found)
      else
        assert |multiset(found)| == 0;
        NoVendorsFound
  }

  /**
   * GetTopRestaurants: as GetFoodAvailability, but at most ten vendors, the
   * best rated ones: every matching vendor left out is rated no higher than
   * every vendor returned.
   */
  function GetTopRestaurants(pincode: Option<string>, vendors: seq<VendorDoc>): (r: ShoppingResponse)
    ensures r == PincodeRequired <==> !Truthy(pincode)
    ensures r == NoVendorsFound <==>
      Truthy(pincode) && forall v :: v in vendors ==> !Serves(v, pincode.value)
    ensures r.VendorsFound? ==>
      var candidates := Candidates(vendors, pincode.value);
      && r.vendors != []
      && |r.vendors| == (if |candidates| < TopLimit then |candidates| else TopLimit)
      && RatingSorted(r.vendors)
      && multiset(r.vendors) <= multiset(candidates)
      && forall v, w :: v in multiset(candidates) - multiset(r.vendors) && w in r.vendors ==> v.rating <= w.rating
    ensures r.PincodeRequired? || r.NoVendorsFound? || r.VendorsFound?
  {
    if !Truthy(pincode) then PincodeRequired
    else
      var candidates := Candidates(vendors, pincode.value);
      var top := Limit(RankByRating(candidates), TopLimit);
      TopOfRanking(candidates, TopLimit);
      if |top| > 0 then VendorsFound(top) else NoVendorsFound
  }

  /** The first `n` of the ranking are sorted, drawn from the input, and rated at least as high as the rest. */
  lemma TopOfRanking(candidates: seq<VendorDoc>, n: nat)
    ensures var top := Limit(RankByRating(candidates), n);
      && (top == [] <==> candidates == [] || n == 0)
      && RatingSorted(top)
      && multiset(top) <= multiset(candidates)
      && forall v, w :: v in multiset(candidates) - multiset(top) && w in top ==> v.rating <= w.rating
  {
    var ranked := RankByRating(candidates);
    assert |ranked| == |candidates| by {
      assert |multiset(ranked)| == |multiset(candidates)|;
    }
    var k := |Limit(ranked, n)|;
    var top := ranked[..k];
    assert Limit(ranked, n) == top;
    RankedCut(ranked, k);
    assert multiset(candidates) - multiset(top) == multiset(ranked[k..]);
  }
  // ------------------------------------------------------- foods in 30 min

  const QuickMinutes := 30

  /** A vendor's foods that are ready within 30 minutes (30 included), in the vendor's order. */
  function QuickOf(foods: seq<Food>): (r: seq<Food>)
    ensures forall f :: f in r <==> f in foods && f.readyTime <= QuickMinutes
    ensures |r| <= |foods|
  {
    if foods == [] then []
    else (if foods[0].readyTime <= QuickMinutes then [foods[0]] else []) + QuickOf(foods[1..])
  }

  /** The quick foods of every vendor, vendor after vendor. */
  function QuickFoods(vendors: seq<VendorDoc>): seq<Food>
  {
    if vendors == [] then []
    else QuickFoods(vendors[..|vendors| - 1]) + QuickOf(vendors[|vendors| - 1].foods)
  }

  /** The filter keeps the relative order: filtering a concatenation concatenates the filtered parts. */
  lemma {:induction false} QuickOfAppend(a: seq<Food>, b: seq<Food>)
    ensures QuickOf(a + b) == QuickOf(a) + QuickOf(b)
  {
    if a == [] {
      assert a + b == b;
    } else {
      assert (a + b)[0] == a[0];
      assert (a + b)[1..] == a[1..] + b;
      QuickOfAppend(a[1..], b);
    }
  }

  /** The result for two runs of vendors is the result for the first followed by that for the second. */
  lemma {:induction false} QuickFoodsAppend(a: seq<VendorDoc>, b: seq<VendorDoc>)
    ensures QuickFoods(a + b) == QuickFoods(a) + QuickFoods(b)
  {
    if b == [] {
      assert a + b == a;
    } else {
      var ab := a + b;
      var b' := b[..|b| - 1];
      var last := QuickOf(b[|b| - 1].foods);
      assert ab[..|ab| - 1] == a + b';
      assert ab[|ab| - 1] == b[|b| - 1];
      QuickFoodsAppend(a, b');
      calc {
        QuickFoods(ab);
        QuickFoods(a + b') + last;
        QuickFoods(a) + QuickFoods(b') + last;
        QuickFoods(a) + (QuickFoods(b') + last);
        QuickFoods(a) + QuickFoods(b);
      }
    }
  }

  /** A food is in the result exactly when some listed vendor has it and it is ready within 30 minutes. */
  lemma {:induction false} QuickFoodsMembers(vendors: seq<VendorDoc>, f: Food)
    ensures f in QuickFoods(vendors) <==>
      (exists v :: v in vendors && f in v.foods) && f.readyTime <= QuickMinutes
  {
    if vendors != [] {
      var init := vendors[..|vendors| - 1];
      var last := vendors[|vendors| - 1];
      QuickFoodsMembers(init, f);
      assert vendors == init + [last];
      if f in last.foods && f.readyTime <= QuickMinutes {
        assert f in QuickOf(last.foods);
      }
      if exists v :: v in vendors && f in v.foods {
        var v :| v in vendors && f in v.foods;
        assert v in init || v == last;
      }
    }
  }

  /** The result is empty exactly when no listed vendor has a food ready within 30 minutes. */
  lemma QuickFoodsEmpty(vendors: seq<VendorDoc>)
    ensures QuickFoods(vendors) == [] <==>
      forall v, f :: v in vendors && f in v.foods ==> f.readyTime > QuickMinutes
  {
    if QuickFoods(vendors) != [] {
      var f := QuickFoods(vendors)[0];
      QuickFoodsMembers(vendors, f);
    }
    forall v, f | v in vendors && f in v.foods && f.readyTime <= QuickMinutes
      ensures QuickFoods(vendors) != []
    {
      QuickFoodsMembers(vendors, f);
    }
  }

  /** The handler's loop: each vendor's quick foods are pushed onto the result in turn. */
  method CollectQuickFoods(vendors: seq<VendorDoc>) returns (foodResult: seq<Food>)
    ensures foodResult == QuickFoods(vendors)
  {
    foodResult := [];
    for i := 0 to |vendors|
      invariant foodResult == QuickFoods(vendors[..i])
    {
      assert vendors[..i + 1][..i] == vendors[..i];
      foodResult := foodResult + QuickOf(vendors[i].foods);
    }
    assert vendors[..|vendors|] == vendors;
  }

  /**
   * GetFoodsIn30Min: a missing or empty pincode is rejected; no serving
   * vendor gives 404; otherwise the answer is 200 with the quick foods of the
   * matching vendors, in storage order, even when that list is empty.
   */
  method GetFoodsIn30Min(pincode: Option<string>, vendors: seq<VendorDoc>) returns (r: ShoppingResponse)
    ensures r == PincodeRequired <==> !Truthy(pincode)
    ensures r == NoVendorsFound <==>
      Truthy(pincode) && forall v :: v in vendors ==> !Serves(v, pincode.value)
    ensures r.FoodsFound? ==> r.foods == QuickFoods(Candidates(vendors, pincode.value))
    ensures r.PincodeRequired? || r.NoVendorsFound? || r.FoodsFound?
  {
    if !Truthy(pincode) {
      return PincodeRequired;
    }
    var found := Candidates(vendors, pincode.value);
    if |found| == 0 {
      return NoVendorsFound;
    }
    var foodResult := CollectQuickFoods(found);
    r := FoodsFound(foodResult);
  }
}
