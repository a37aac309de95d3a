/**
  The product list of src/pages/ProductsPage.tsx: the fallback for a body that
  is not a list, the search filter over the first translation's name and
  description, and the cart item built when a product is added to the cart.
 */
module Products {
  import opened Maybe
  import opened JsValues
  import opened Cart

  /** The products after the load: a list body is taken as it is, any other
      body gives the empty list; when the request or the body parse throws, the
      products stay as they were. The status code is not looked at. */
  function ProductsAfterLoad(before: seq<Json>, reply: Reply): (after: seq<Json>)
    ensures reply.Thrown? ==> after == before
    ensures reply.Responded? && reply.body.JArr? ==> after == reply.body.items
    ensures reply.Responded? && !reply.body.JArr? ==> after == []
  {
    match reply
    case Thrown(_) => before
    case Responded(_, body) => if body.JArr? then body.items else []
  }

  // ---------------------------------------------------------------------------
  // Case-insensitive substring search.
  // ---------------------------------------------------------------------------

  /** `toLowerCase()` on the ASCII letters. */
  function Lower(s: string): (r: string)
    ensures |r| == |s|
    ensures forall i :: 0 <= i < |s| ==> r[i] == LowerChar(s[i])
  {
    if s == [] then [] else [LowerChar(s[0])] + Lower(s[1..])
  }

  function LowerChar(c: char): char {
    if 'A' <= c <= 'Z' then (c as int + 32) as char else c
  }

  /** `t` occurs in `s` at offset `i`. */
  predicate OccursAt(s: string, t: string, i: int) {
    0 <= i && i + |t| <= |s| && s[i..i + |t|] == t
  }

  /** `s.includes(t)`: `t` is a prefix of `s` or occurs in its tail. */
  function Includes(s: string, t: string): (r: bool)
    ensures t == [] ==> r
    ensures r ==> |t| <= |s|
  {
    if |t| <= |s| && s[..|t|] == t then true
    else if s == [] then false
    else Includes(s[1..], t)
  }

  /** `includes` finds `t` exactly when it occurs somewhere in `s`. */
  lemma {:induction false} IncludesIsOccurrence(s: string, t: string)
    ensures Includes(s, t) <==> exists i :: OccursAt(s, t, i)
  {
    if |t| <= |s| && s[..|t|] == t {
      assert OccursAt(s, t, 0);
    } else if s == [] {
    } else {
      IncludesIsOccurrence(s[1..], t);
      if Includes(s[1..], t) {
        var i :| OccursAt(s[1..], t, i);
        assert s[1..][i..i + |t|] == s[i + 1..i + 1 + |t|];
        assert OccursAt(s, t, i + 1);
      }
      if exists i :: OccursAt(s, t, i) {
        var i :| OccursAt(s, t, i);
        assert i != 0;
        assert s[1..][i - 1..i - 1 + |t|] == s[i..i + |t|];
        assert OccursAt(s[1..], t, i - 1);
      }
    }
  }

  /** `field?.toLowerCase().includes(term.toLowerCase())`: false (undefined)
      when the field is null or undefined, None (a TypeError) when it is not a
      string, since only strings have `toLowerCase`. */
  function FieldMatches(field: Option<Json>, term: string): Option<bool> {
    if IsNullish(field) then Some(false)
    else if field.value.JStr? then Some(Includes(Lower(field.value.s), Lower(term)))
    else None
  }

  /** A field the search can read: nullish (the test is skipped) or a string. */
  predicate Searchable(field: Option<Json>) {
    IsNullish(field) || field.value.JStr?
  }

  /** A string field that includes the term, ignoring ASCII case. */
  predicate Hit(field: Option<Json>, term: string) {
    field.Some? && field.value.JStr? && Includes(Lower(field.value.s), Lower(term))
  }

  /** The first translation of a product: `product.translations?.[0]`. */
  function Translation(product: Json): Option<Json> {
    First(Get(product, "translations"))
  }

  /** The filter predicate for one product: the name test, then, when it is
      false, the description test. None is the TypeError a null product or a
      non-string field raises. The category is always "all", so its test always
      passes. */
  function Matches(product: Json, term: string): (r: Option<bool>)
    ensures product == JNull ==> r.None?
    ensures r == Some(true) ==>
      var name := Prop(Translation(product), "name");
      var description := Prop(Translation(product), "description");
      || (name.Some? && name.value.JStr? && Includes(Lower(name.value.s), Lower(term)))
      || ((IsNullish(name) || name.value.JStr?) && description.Some? && description.value.JStr?
          && Includes(Lower(description.value.s), Lower(term)))
    ensures r == Some(false) ==>
      IsNullish(Prop(Translation(product), "description")) || Prop(Translation(product), "description").value.JStr?
    ensures (product != JNull && Searchable(Prop(Translation(product), "name"))
             && Searchable(Prop(Translation(product), "description"))) ==> r.Some?
    ensures r.Some? ==>
      (r.value <==> Hit(Prop(Translation(product), "name"), term) || Hit(Prop(Translation(product), "description"), term))
    ensures r.None? <==>
      || product == JNull
      || !Searchable(Prop(Translation(product), "name"))
      || (!Hit(Prop(Translation(product), "name"), term) && !Searchable(Prop(Translation(product), "description")))
  {
    if product == JNull then None
    else
      var byName := FieldMatches(Prop(Translation(product), "name"), term);
      if byName == Some(false) then FieldMatches(Prop(Translation(product), "description"), term)
      else byName
  }

  const SelectedCategory: string := "all"

  /** `products.filter(...)`: the kept products, or None when the predicate throws. */
  function Filter(products: seq<Json>, term: string): (r: Option<seq<Json>>)
    ensures products == [] ==> r == Some([])
    ensures r.Some? ==> |r.value| <= |products| && forall p :: p in r.value ==> p in products
  {
    if products == [] then Some([])
    else
      match Matches(products[0], term)
      case None => None
      case Some(keep) =>
        match Filter(products[1..], term)
        case None => None
        case Some(rest) => Some(if keep && SelectedCategory == "all" then [products[0]] + rest else rest)
  }

  /** `sub` is `s` with some elements dropped, order kept. */
  predicate IsSubsequence(sub: seq<Json>, s: seq<Json>) {
    if sub == [] then true
    else if s == [] then false
    else if sub[0] == s[0] then IsSubsequence(sub[1..], s[1..])
    else IsSubsequence(sub, s[1..])
  }

  /** The filter fails exactly when the predicate fails on some product; when
      it succeeds it keeps exactly the matching products, in their order. */
  lemma {:induction false} FilterKeepsMatches(products: seq<Json>, term: string)
    ensures Filter(products, term).Some? <==> forall p :: p in products ==> Matches(p, term).Some?
    ensures Filter(products, term).Some? ==>
      var kept := Filter(products, term).value;
      && IsSubsequence(kept, products)
      && (forall p :: p in kept ==> Matches(p, term) == Some(true))
      && (forall p :: p in products && Matches(p, term) == Some(true) ==> p in kept)
      && (forall p :: multiset(kept)[p] == if Matches(p, term) == Some(true) then multiset(products)[p] else 0)
  {
    if products != [] {
      FilterKeepsMatches(products[1..], term);
      assert forall p :: p in products <==> p == products[0] || p in products[1..];
      if Filter(products, term).Some? {
        var rest := Filter(products[1..], term).value;
        assert products == [products[0]] + products[1..];
        if Matches(products[0], term) == Some(true) {
          assert ([products[0]] + rest)[1..] == rest;
        }
      }
    }
  }

  /** With an empty search term every product whose first translation has a
      string name, or no name and a string description, is kept. */
  lemma EmptyTermKeepsNamed(product: Json)
    requires product != JNull
    requires var name := Prop(Translation(product), "name");
      var description := Prop(Translation(product), "description");
      (name.Some? && name.value.JStr?) || (IsNullish(name) && description.Some? && description.value.JStr?)
    ensures Matches(product, "") == Some(true)
  {
    var name := Prop(Translation(product), "name");
    if name.Some? && name.value.JStr? {
      assert Lower(name.value.s)[..0] == Lower("");
    } else {
      var description := Prop(Translation(product), "description");
      assert Lower(description.value.s)[..0] == Lower("");
    }
  }

  /** A product whose first translation has neither a name nor a description
      is never kept. */
  lemma NamelessNeverKept(product: Json, term: string)
    requires product != JNull
    requires IsNullish(Prop(Translation(product), "name")) && IsNullish(Prop(Translation(product), "description"))
    ensures Matches(product, term) == Some(false)
  {
  }

  /** The search is case-insensitive: terms that differ only in ASCII case select the same products. */
  lemma {:induction false} CaseInsensitive(products: seq<Json>, term1: string, term2: string)
    requires Lower(term1) == Lower(term2)
    ensures Filter(products, term1) == Filter(products, term2)
  {
    if products != [] {
      CaseInsensitive(products[1..], term1, term2);
    }
  }

  // ---------------------------------------------------------------------------
  // Adding a product to the cart (handleAddToCart).
  // ---------------------------------------------------------------------------

  /** The item passed to `addToCart`. Only listed products reach this, and the
      filter has already thrown on a null one. */
  function CartItemFor(product: Json): (item: CartItem)
    requires product != JNull
    ensures item.id == Get(product, "id")
    ensures Truthy(Prop(Translation(product), "name")) ==> Some(item.name) == Prop(Translation(product), "name")
    ensures !Truthy(Prop(Translation(product), "name")) ==> item.name == JStr("Unnamed Product")
    ensures item.price == JsonPrice(Get(product, "coin")) && item.coinPrice == Get(product, "coin")
    ensures Truthy(First(Get(product, "photo_url"))) ==> Some(item.image) == First(Get(product, "photo_url"))
    ensures !Truthy(First(Get(product, "photo_url"))) ==> item.image == JNull
  {
    var coin := Get(product, "coin");
    CartItem(
      Get(product, "id"),
      Or(Prop(Translation(product), "name"), JStr("Unnamed Product")),
      JsonPrice(coin),
      coin,
      Or(First(Get(product, "photo_url")), JNull))
  }
}
