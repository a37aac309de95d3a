/**
  The checkout page of src/pages/CheckoutPage.tsx: whether the user's coins
  cover the cart, which of its three views is shown, the calls its buttons
  make on the cart, and the checkout sequence with its simulated payment.
 */
module Checkout {
  import opened Maybe
  import opened JsValues
  import opened Cart

  /** `user && user.coins >= totalCoinPrice`: `>=` converts `coins` with
      `Number()`, and NaN (a missing or non-numeric `coins`) compares false. */
  function CanPayWithCoins(user: Option<Json>, totalCoinPrice: int): (can: bool)
    ensures !Truthy(user) ==> !can
    ensures can ==> ToNumber(Get(user.value, "coins")).Some?
  {
    Truthy(user) &&
      var coins := ToNumber(Prop(user, "coins"));
      coins.Some? && coins.value >= totalCoinPrice
  }

  /** A signed-in user whose `coins` is a number pays exactly when it covers the total. */
  lemma CoinsCoverTotal(user: Json, coins: int, totalCoinPrice: int)
    requires Truthy(Some(user)) && Get(user, "coins") == Some(JNum(coins))
    ensures CanPayWithCoins(Some(user), totalCoinPrice) <==> coins >= totalCoinPrice
  {
  }

  /** Whoever can pay for a total can pay for any smaller one. */
  lemma CanPayMonotone(user: Option<Json>, total: int, smaller: int)
    requires smaller <= total && CanPayWithCoins(user, total)
    ensures CanPayWithCoins(user, smaller)
  {
  }

  /** A user without `coins` cannot pay, whatever the total. */
  lemma NoCoinsCannotPay(user: Json, totalCoinPrice: int)
    requires Get(user, "coins").None?
    ensures !CanPayWithCoins(Some(user), totalCoinPrice)
  {
  }

  datatype View = OrderComplete | EmptyCart | Summary

  /** The view rendered: the completed order first, then the empty cart, then the summary. */
  function Screen(orderComplete: bool, itemCount: nat): (v: View)
    ensures v == OrderComplete <==> orderComplete
    ensures v == EmptyCart <==> !orderComplete && itemCount == 0
    ensures v == Summary <==> !orderComplete && itemCount > 0
  {
    if orderComplete then OrderComplete
    else if itemCount == 0 then EmptyCart
    else Summary
  }

  /** One line of the cart as the page reads it. */
  datatype CartLine = CartLine(id: Option<Json>, quantity: int)

  /** The minus button: quantity − 1, for that line's id. */
  function MinusCall(line: CartLine): (call: CartCall)
    ensures call.UpdateQuantity? && call.id == line.id && call.quantity + 1 == line.quantity
  {
    UpdateQuantity(line.id, line.quantity - 1)
  }

  /** The plus button: quantity + 1, for that line's id. */
  function PlusCall(line: CartLine): (call: CartCall)
    ensures call.UpdateQuantity? && call.id == line.id && call.quantity - 1 == line.quantity
  {
    UpdateQuantity(line.id, line.quantity + 1)
  }

  /** The page does not floor the quantity: minus on a single item asks for 0,
      and plus after minus asks for the quantity the line had. */
  lemma NoFloorAtCheckout(id: Option<Json>, quantity: int)
    ensures MinusCall(CartLine(id, 1)) == UpdateQuantity(id, 0)
    ensures PlusCall(CartLine(id, MinusCall(CartLine(id, quantity)).quantity)) == UpdateQuantity(id, quantity)
  {
  }

  /** The page's state and the calls it has made on the cart. `pending` counts
      checkouts waiting for the simulated payment. */
  class CheckoutView {
    var isProcessing: bool
    var orderComplete: bool
    var pending: nat
    var calls: seq<CartCall>

    constructor ()
      ensures !isProcessing && !orderComplete && pending == 0 && calls == []
    {
      isProcessing, orderComplete, pending, calls := false, false, 0, [];
    }

    function Shown(itemCount: nat): View
      reads this
    {
      Screen(orderComplete, itemCount)
    }

    /** `handleCheckout` up to its `await`. */
    method StartCheckout()
      modifies this
      ensures isProcessing && pending == old(pending) + 1
      ensures orderComplete == old(orderComplete) && calls == old(calls)
    {
      isProcessing := true;
      pending := pending + 1;
    }

    /** The rest of `handleCheckout` once the two-second payment has been simulated. */
    method PaymentSimulated()
      requires pending > 0
      modifies this
      ensures !isProcessing && orderComplete && pending == old(pending) - 1
      ensures calls == old(calls) + [ClearCart]
      ensures forall n: nat :: Shown(n) == OrderComplete
    {
      pending := pending - 1;
      isProcessing := false;
      orderComplete := true;
      calls := calls + [ClearCart];
    }

    method ClickMinus(line: CartLine)
      modifies this
      ensures calls == old(calls) + [MinusCall(line)]
      ensures isProcessing == old(isProcessing) && orderComplete == old(orderComplete) && pending == old(pending)
    {
      calls := calls + [UpdateQuantity(line.id, line.quantity - 1)];
    }

    method ClickPlus(line: CartLine)
      modifies this
      ensures calls == old(calls) + [PlusCall(line)]
      ensures isProcessing == old(isProcessing) && orderComplete == old(orderComplete) && pending == old(pending)
    {
      calls := calls + [UpdateQuantity(line.id, line.quantity + 1)];
    }

    method ClickRemove(line: CartLine)
      modifies this
      ensures calls == old(calls) + [RemoveFromCart(line.id)]
      ensures isProcessing == old(isProcessing) && orderComplete == old(orderComplete) && pending == old(pending)
    {
      calls := calls + [RemoveFromCart(line.id)];
    }
  }

  /** A whole checkout, started and resumed, clears the cart exactly once and
      ends on the completed order. */
  method CompleteCheckout(view: CheckoutView)
    modifies view
    ensures view.calls == old(view.calls) + [ClearCart]
    ensures !view.isProcessing && view.orderComplete && view.pending == old(view.pending)
  {
    view.StartCheckout();
    view.PaymentSimulated();
  }
}
