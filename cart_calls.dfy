/**
  The calls the pages make on the shopping cart (`useCart()`). The cart's own
  behaviour lives in src/contexts/CartContext, which is not part of this model:
  a page's effect on the cart is the sequence of calls it makes, in order.
 */
module Cart {
  import opened Maybe
  import opened JsValues

  /** A price: a JSON value taken from a product as it is, or a literal amount
      written in the page, in hundredths (99.99 is 9999). */
  datatype Price = JsonPrice(v: Option<Json>) | Hundredths(n: int)

  /** The object passed to `addToCart`. */
  datatype CartItem = CartItem(id: Option<Json>, name: Json, price: Price, coinPrice: Option<Json>, image: Json)

  datatype CartCall =
    | AddToCart(item: CartItem)
    | UpdateQuantity(id: Option<Json>, quantity: int)
    | RemoveFromCart(id: Option<Json>)
    | ClearCart

  /** `n` copies of `call`. */
  function Repeat(call: CartCall, n: nat): (r: seq<CartCall>)
    ensures |r| == n
    ensures forall k :: 0 <= k < n ==> r[k] == call
  {
    if n == 0 then [] else Repeat(call, n - 1) + [call]
  }
}
