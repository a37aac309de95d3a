/**
  The deposit panel of src/pages/EarningsPage.tsx: a deposit request goes out
  over the page's socket, the request button is then disabled, and a one-second
  interval counts a 120-second cooldown down before it is enabled again.
  Also the lookup that prices the typed amount in the selected currency, and
  the label of a payment's status.
 */
module Earnings {
  import opened Maybe
  import opened Digits
  import opened JsValues

  const Cooldown: nat := 120

  /** The panel's state: `isDepositDisabled`, `depositTimer`, `balance`,
      `coinAmount` (the text in the amount input) and the selected `currency`. */
  datatype Panel = Panel(disabled: bool, timer: int, balance: int, coinAmount: string, currency: string)

  /** The `paymentRequest` event emitted on the socket. */
  datatype PaymentRequest = PaymentRequest(currency: string, howMuch: int)

  /** The button is disabled exactly while the cooldown runs. */
  ghost predicate Valid(p: Panel) {
    p.timer >= 0 && (p.disabled <==> p.timer > 0)
  }

  function Initial(): (p: Panel)
    ensures Valid(p) && !p.disabled && p.timer == 0
  {
    Panel(false, 0, 0, "", "USD")
  }

  /** `parseFloat(text)` on whole amounts: an optional sign and the digits that
      follow it, up to the first other character; NaN (None) when there are none. */
  function ParseAmount(text: string): (r: Option<int>)
    ensures var unsigned := if |text| > 0 && (text[0] == '-' || text[0] == '+') then text[1..] else text;
      r.None? <==> unsigned == [] || !IsDigit(unsigned[0])
  {
    var signed := |text| > 0 && (text[0] == '-' || text[0] == '+');
    var digits := DigitPrefix(if signed then text[1..] else text);
    if digits == [] then None
    else if signed && text[0] == '-' then Some(-(ParseDigits(digits) as int))
    else Some(ParseDigits(digits))
  }

  /** Whole digits, optionally signed, followed by anything that is not a
      digit, read as their value. */
  lemma ParseAmountReadsPrefix(n: nat, rest: string)
    requires rest == [] || !IsDigit(rest[0])
    ensures ParseAmount(NatToString(n) + rest) == Some(n)
    ensures ParseAmount("+" + NatToString(n) + rest) == Some(n)
    ensures ParseAmount("-" + NatToString(n) + rest) == Some(-(n as int))
  {
    var digits := NatToString(n);
    UnsignedAmount(digits, rest);
    ParseNatToString(n);
    SignedAmount(digits + rest, n);
    Regroup('+', digits, rest);
    Regroup('-', digits, rest);
  }

  /** A run of digits followed by a non-digit (or nothing) reads as the run's value. */
  lemma UnsignedAmount(digits: string, rest: string)
    requires |digits| > 0 && AllDigits(digits)
    requires rest == [] || !IsDigit(rest[0])
    ensures IsDigit((digits + rest)[0])
    ensures ParseAmount(digits + rest) == Some(ParseDigits(digits))
  {
    var text := digits + rest;
    assert text[0] == digits[0];
    UnsignedText(text);
    DigitPrefixOf(digits, rest);
  }

  /** Text that starts with a digit reads as the value of its leading digits. */
  lemma UnsignedText(text: string)
    requires |text| > 0 && IsDigit(text[0])
    ensures ParseAmount(text) == Some(ParseDigits(DigitPrefix(text)))
  {
  }

  /** A sign before text that starts with a digit keeps or negates its value. */
  lemma SignedAmount(unsigned: string, v: nat)
    requires |unsigned| > 0 && IsDigit(unsigned[0])
    requires ParseAmount(unsigned) == Some(v)
    ensures ParseAmount(['+'] + unsigned) == Some(v)
    ensures ParseAmount(['-'] + unsigned) == Some(-(v as int))
  {
    assert (['+'] + unsigned)[1..] == unsigned;
    assert (['-'] + unsigned)[1..] == unsigned;
  }

  lemma Regroup(sign: char, digits: string, rest: string)
    ensures [sign] + digits + rest == [sign] + (digits + rest)
  {
  }

  /** `parseFloat(coinAmount || "0")`. */
  function ReadAmount(coinAmount: string): Option<int> {
    ParseAmount(if coinAmount == "" then "0" else coinAmount)
  }

  /** The amount `handleDeposit` reads. */
  function Amount(p: Panel): Option<int> {
    ReadAmount(p.coinAmount)
  }

  /** A press of the request button is acted on: the button is enabled, the
      amount is positive and the socket exists. */
  predicate Accepts(p: Panel, connected: bool) {
    !p.disabled && connected && Amount(p).Some? && Amount(p).value > 0
  }

  /** `handleDeposit`: the new panel and the request emitted on the socket, if any. */
  function Deposit(p: Panel, connected: bool): (r: (Panel, Option<PaymentRequest>))
    ensures Valid(p) ==> Valid(r.0)
    ensures r.1.Some? <==> Accepts(p, connected)
    ensures !Accepts(p, connected) ==> r.0 == p
    ensures Accepts(p, connected) ==>
      && r.1 == Some(PaymentRequest(p.currency, Amount(p).value))
      && r.0 == p.(balance := p.balance + Amount(p).value, coinAmount := "", disabled := true, timer := Cooldown)
  {
    if p.disabled then (p, None)
    else
      var amount := Amount(p);
      if amount.Some? && amount.value > 0 && connected then
        (p.(balance := p.balance + amount.value, coinAmount := "", disabled := true, timer := Cooldown),
         Some(PaymentRequest(p.currency, amount.value)))
      else (p, None)
  }

  /** One second of the interval the effect keeps while `isDepositDisabled && depositTimer > 0`. */
  function Tick(p: Panel): (q: Panel)
    ensures Valid(p) ==> Valid(q)
    ensures q.balance == p.balance && q.coinAmount == p.coinAmount && q.currency == p.currency
    ensures Valid(p) && p.timer > 1 ==> q.timer == p.timer - 1 && q.disabled
    ensures Valid(p) && p.timer <= 1 ==> q.timer == 0 && !q.disabled
  {
    if p.disabled && p.timer > 0 then
      if p.timer <= 1 then p.(disabled := false, timer := 0) else p.(timer := p.timer - 1)
    else p
  }

  /** Whatever happens on the page, in the order it happens. */
  datatype Event = Typed(text: string) | Selected(currency: string) | Pressed(connected: bool) | Second

  function Step(p: Panel, e: Event): Panel {
    match e
    case Typed(text) => p.(coinAmount := text)
    case Selected(c) => p.(currency := c)
    case Pressed(connected) => Deposit(p, connected).0
    case Second => Tick(p)
  }

  function Run(p: Panel, es: seq<Event>): Panel
    decreases |es|
  {
    if es == [] then p else Run(Step(p, es[0]), es[1..])
  }

  /** The number of seconds that pass during `es`. */
  function Seconds(es: seq<Event>): nat {
    if es == [] then 0 else (if es[0] == Second then 1 else 0) + Seconds(es[1..])
  }

  /** The event at index `k` of `es` is a deposit that is acted on. */
  predicate AcceptedAt(p: Panel, es: seq<Event>, k: nat)
    requires k < |es|
  {
    es[k].Pressed? && Accepts(Run(p, es[..k]), es[k].connected)
  }

  lemma {:induction false} RunValid(p: Panel, es: seq<Event>)
    requires Valid(p)
    ensures Valid(Run(p, es))
    decreases |es|
  {
    if es != [] {
      RunValid(Step(p, es[0]), es[1..]);
    }
  }

  lemma {:induction false} RunAppend(p: Panel, a: seq<Event>, b: seq<Event>)
    ensures Run(p, a + b) == Run(Run(p, a), b)
    decreases |a|
  {
    if a == [] {
      assert a + b == b;
    } else {
      assert (a + b)[1..] == a[1..] + b;
      RunAppend(Step(p, a[0]), a[1..], b);
    }
  }

  /** The timer falls by at most one per second, and only a second makes it fall. */
  lemma {:induction false} TimerFallsSlowly(p: Panel, es: seq<Event>)
    requires Valid(p)
    ensures Run(p, es).timer + Seconds(es) >= p.timer
    decreases |es|
  {
    if es != [] {
      TimerFallsSlowly(Step(p, es[0]), es[1..]);
    }
  }

  /** Two deposits that are both acted on are at least 120 seconds apart. */
  lemma CooldownBetweenDeposits(p: Panel, es: seq<Event>, i: nat, j: nat)
    requires Valid(p)
    requires i < j < |es|
    requires AcceptedAt(p, es, i) && AcceptedAt(p, es, j)
    ensures Seconds(es[i + 1..j]) >= Cooldown
  {
    var before := Run(p, es[..i]);
    RunValid(p, es[..i]);
    var after := Step(before, es[i]);
    assert after.timer == Cooldown;
    assert es[..i + 1] == es[..i] + [es[i]];
    RunAppend(p, es[..i], [es[i]]);
    assert Run(before, [es[i]]) == after;
    assert es[..j] == es[..i + 1] + es[i + 1..j];
    RunAppend(p, es[..i + 1], es[i + 1..j]);
    TimerFallsSlowly(after, es[i + 1..j]);
    RunValid(after, es[i + 1..j]);
  }

  // ---------------------------------------------------------------------------
  // Pricing the typed amount (getCalculatedValue).
  // ---------------------------------------------------------------------------

  /** What the price line shows: nothing, or the typed amount times the
      selected rate's `count` (the product and its formatting are not
      modelled); or the render throws. */
  datatype Calculated = Blank | Priced(amount: int, count: Option<Json>) | RenderCrash

  /** The outcome of `coinData.find(c => c.currency === currency)`: the rate
      found, no rate, or the TypeError of reading `currency` from a null rate. */
  datatype Lookup = Found(rate: Json) | Missing | Throws

  predicate HasCurrency(rate: Json, currency: string) {
    Get(rate, "currency") == Some(JStr(currency))
  }

  /** The rates before index `k` are neither null nor of `currency`. */
  predicate PassedBefore(rates: seq<Json>, currency: string, k: int)
    requires k <= |rates|
  {
    forall j :: 0 <= j < k ==> rates[j] != JNull && !HasCurrency(rates[j], currency)
  }

  /** `find` stops at the first rate of the currency, or throws at the first
      null rate before it. */
  function FindCurrency(rates: seq<Json>, currency: string): (r: Lookup)
    ensures r.Found? ==> exists k :: 0 <= k < |rates| && rates[k] == r.rate && HasCurrency(rates[k], currency) && PassedBefore(rates, currency, k)
    ensures r.Throws? ==> exists k :: 0 <= k < |rates| && rates[k] == JNull && PassedBefore(rates, currency, k)
    ensures r.Missing? ==> PassedBefore(rates, currency, |rates|)
  {
    if rates == [] then Missing
    else if rates[0] == JNull then
      assert PassedBefore(rates, currency, 0);
      Throws
    else if HasCurrency(rates[0], currency) then
      assert PassedBefore(rates, currency, 0);
      Found(rates[0])
    else
      var r := FindCurrency(rates[1..], currency);
      ShiftPassed(rates, currency);
      r
  }

  lemma ShiftPassed(rates: seq<Json>, currency: string)
    requires rates != [] && rates[0] != JNull && !HasCurrency(rates[0], currency)
    ensures forall k :: 0 <= k <= |rates| - 1 && PassedBefore(rates[1..], currency, k) ==> PassedBefore(rates, currency, k + 1)
  {
    forall k | 0 <= k <= |rates| - 1 && PassedBefore(rates[1..], currency, k)
      ensures PassedBefore(rates, currency, k + 1)
    {
      forall j | 0 <= j < k + 1
        ensures rates[j] != JNull && !HasCurrency(rates[j], currency)
      {
        if j > 0 {
          assert rates[j] == rates[1..][j - 1];
        }
      }
    }
  }

  /** `getCalculatedValue`. The lookup runs before the amount is parsed. */
  function CalculatedValue(coinData: Option<Json>, currency: string, coinAmount: string): (r: Calculated)
    ensures !Truthy(coinData) || !coinData.value.JArr? ==> r == Blank
    ensures coinData.Some? && coinData.value.JArr? ==>
      var found := FindCurrency(coinData.value.items, currency);
      && (found.Throws? ==> r == RenderCrash)
      && (found.Missing? ==> r == Blank)
      && (found.Found? && ReadAmount(coinAmount).None? ==> r == Blank)
      && (found.Found? && ReadAmount(coinAmount).Some? ==> r == Priced(ReadAmount(coinAmount).value, Get(found.rate, "count")))
  {
    if !Truthy(coinData) || !coinData.value.JArr? then Blank
    else
      match FindCurrency(coinData.value.items, currency)
      case Throws => RenderCrash
      case Missing => Blank
      case Found(selected) =>
        var amount := ReadAmount(coinAmount);
        if amount.None? then Blank
        else Priced(amount.value, Get(selected, "count"))
  }

  /** A null rate ahead of the selected currency crashes the render. */
  lemma NullRateCrashes(usd: Json)
    requires HasCurrency(usd, "USD")
    ensures CalculatedValue(Some(JArr([JNull, usd])), "USD", "2") == RenderCrash
  {
    assert JArr([JNull, usd]).items[0] == JNull;
  }

  /** With two rates for the same currency, the first one prices the amount. */
  lemma FirstRateWins(first: Json, second: Json)
    requires HasCurrency(first, "USD") && HasCurrency(second, "USD")
    ensures CalculatedValue(Some(JArr([first, second])), "USD", "") == Priced(0, Get(first, "count"))
  {
    ParseAmountReadsPrefix(0, "");
    assert NatToString(0) == "0";
  }

  // ---------------------------------------------------------------------------
  // The label of a payment's status in the history list.
  // ---------------------------------------------------------------------------

  /** The label as the page writes it. */
  function StatusLabel(status: Option<Json>): (shown: string)
    ensures shown == "Sending" <==> status == Some(JStr("SENDING"))
    ensures shown == "Success" <==> status == Some(JStr("CANCELLED"))
    ensures shown == "CANCELLED" <==> status != Some(JStr("SENDING")) && status != Some(JStr("CANCELLED"))
  {
    if status == Some(JStr("SENDING")) then "Sending"
    else if status == Some(JStr("CANCELLED")) then "Success"
    else "CANCELLED"
  }

  /** As written, a cancelled payment is labelled "Success" and a successful one "CANCELLED". */
  lemma StatusLabelSwapped()
    ensures StatusLabel(Some(JStr("CANCELLED"))) == "Success"
    ensures StatusLabel(Some(JStr("SUCCESS"))) == "CANCELLED"
  {
  }

  /** The label the three status names evidently call for. */
  function IntendedStatusLabel(status: Option<Json>): (shown: string)
    ensures status == Some(JStr("SENDING")) <==> shown == "Sending"
    ensures status == Some(JStr("SUCCESS")) <==> shown == "Success"
    ensures status != Some(JStr("SENDING")) && status != Some(JStr("SUCCESS")) <==> shown == "CANCELLED"
  {
    if status == Some(JStr("SENDING")) then "Sending"
    else if status == Some(JStr("SUCCESS")) then "Success"
    else "CANCELLED"
  }

  /** The corrected label names a successful payment "Success" and never calls
      a cancelled one a success. */
  lemma IntendedLabelAgrees()
    ensures IntendedStatusLabel(Some(JStr("SUCCESS"))) == "Success"
    ensures IntendedStatusLabel(Some(JStr("CANCELLED"))) == "CANCELLED"
  {
  }

  /** The page's deposit panel; `requests` records what was emitted on the socket. */
  class DepositPanel {
    var isDepositDisabled: bool
    var depositTimer: int
    var balance: int
    var coinAmount: string
    var currency: string
    var requests: seq<PaymentRequest>

    function State(): Panel
      reads this
    {
      Panel(isDepositDisabled, depositTimer, balance, coinAmount, currency)
    }

    constructor ()
      ensures State() == Initial() && requests == []
    {
      isDepositDisabled, depositTimer := false, 0;
      balance, coinAmount, currency := 0, "", "USD";
      requests := [];
    }

    method Type(text: string)
      modifies this
      ensures State() == Step(old(State()), Typed(text)) && requests == old(requests)
    {
      coinAmount := text;
    }

    method HandleDeposit(connected: bool)
      modifies this
      ensures State() == Deposit(old(State()), connected).0
      ensures requests == old(requests) + (if Accepts(old(State()), connected) then [Deposit(old(State()), connected).1.value] else [])
    {
      if isDepositDisabled {
        return;
      }
      var amount := ReadAmount(coinAmount);
      if amount.Some? && amount.value > 0 && connected {
        requests := requests + [PaymentRequest(currency, amount.value)];
        balance := balance + amount.value;
        coinAmount := "";
        isDepositDisabled := true;
        depositTimer := Cooldown;
      }
    }

    /** One firing of the cooldown interval; the effect only keeps an interval
        while the button is disabled and time is left. */
    method OnSecond()
      modifies this
      ensures State() == Tick(old(State())) && requests == old(requests)
    {
      if isDepositDisabled && depositTimer > 0 {
        if depositTimer <= 1 {
          isDepositDisabled := false;
          depositTimer := 0;
        } else {
          depositTimer := depositTimer - 1;
        }
      }
    }
  }
}
