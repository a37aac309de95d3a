/**
  The product page of src/pages/ProductDetailPage.tsx: the quantity selector,
  which never goes below 1, and the add-to-cart button, which adds the page's
  (fixed, mock) product once per unit of the selected quantity.
 */
module ProductDetail {
  import opened Maybe
  import opened JsValues
  import opened Cart

  const ProductName: string := "Digital Marketing Masterclass"
  /** The price 99.99, in hundredths. */
  const PriceHundredths: int := 9999
  const CoinPrice: int := 2000
  const FirstImage: string := "https://images.pexels.com/photos/265087/pexels-photo-265087.jpeg?auto=compress&cs=tinysrgb&w=800"

  /** `id || '1'` for the route parameter. */
  function ProductId(routeId: Option<string>): (id: string)
    ensures routeId.None? || routeId == Some("") ==> id == "1"
    ensures routeId.Some? && routeId.value != "" ==> id == routeId.value
  {
    if routeId.None? || routeId.value == "" then "1" else routeId.value
  }

  /** The item each call passes: the page's product with its first image. */
  function DetailItem(routeId: Option<string>): (item: CartItem)
    ensures item.id == Some(JStr(ProductId(routeId)))
    ensures item.name == JStr(ProductName)
    ensures item.price == Hundredths(PriceHundredths) && item.coinPrice == Some(JNum(CoinPrice))
    ensures item.image == JStr(FirstImage)
  {
    CartItem(Some(JStr(ProductId(routeId))), JStr(ProductName), Hundredths(9999), Some(JNum(2000)), JStr(FirstImage))
  }

  /** The minus button: `Math.max(1, quantity - 1)`. */
  function Decrement(quantity: int): (q: int)
    ensures q >= 1
    ensures quantity > 1 ==> q == quantity - 1
    ensures quantity <= 1 ==> q == 1
  {
    if quantity - 1 > 1 then quantity - 1 else 1
  }

  /** Minus undoes plus. */
  lemma DecrementUndoesIncrement(quantity: int)
    requires quantity >= 1
    ensures Decrement(quantity + 1) == quantity
  {
  }

  /** The page's selected quantity and the calls it has made on the cart. */
  class DetailView {
    const routeId: Option<string>
    var quantity: int
    var calls: seq<CartCall>

    predicate Valid()
      reads this
    {
      quantity >= 1
    }

    constructor (routeId: Option<string>)
      ensures Valid() && quantity == 1 && calls == [] && this.routeId == routeId
    {
      this.routeId := routeId;
      quantity := 1;
      calls := [];
    }

    method ClickMinus()
      modifies this
      ensures quantity == Decrement(old(quantity)) && calls == old(calls)
      ensures Valid()
    {
      quantity := if quantity - 1 > 1 then quantity - 1 else 1;
    }

    method ClickPlus()
      requires Valid()
      modifies this
      ensures quantity == old(quantity) + 1 && calls == old(calls)
      ensures Valid()
    {
      quantity := quantity + 1;
    }

    /** `handleAddToCart`: `quantity` calls, each with the same item. */
    method AddToCart()
      requires Valid()
      modifies this
      ensures quantity == old(quantity)
      ensures calls == old(calls) + Repeat(Cart.AddToCart(DetailItem(routeId)), quantity)
      ensures |calls| == |old(calls)| + quantity
    {
      var item := CartItem(Some(JStr(ProductId(routeId))), JStr(ProductName), Hundredths(9999), Some(JNum(2000)), JStr(FirstImage));
      var i := 0;
      while i < quantity
        invariant quantity == old(quantity) && 0 <= i <= quantity
        invariant calls == old(calls) + Repeat(Cart.AddToCart(item), i)
      {
        calls := calls + [Cart.AddToCart(item)];
        i := i + 1;
      }
    }
  }
}
