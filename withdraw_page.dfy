/**
  The withdrawal page of src/pages/WithdrawPage.tsx: the history loaded from
  the API, the request built from the form and appended to the history when
  the API accepts it, and the total of the completed withdrawals.
 */
module Withdraw {
  import opened Maybe
  import opened JsValues

  /** The object the form submits: `how_much` is `Number()` of the field
      (None is NaN), the other two are the fields' text. */
  datatype WithdrawRequest = WithdrawRequest(howMuch: Option<int>, cardNumber: string, fullName: string)

  /** An entry of the history: one loaded from the API, or a request this page submitted. */
  datatype Entry = Loaded(v: Json) | Submitted(request: WithdrawRequest)

  /** `withdrawHistory`: a list, or whatever other body the load delivered. */
  datatype History = Entries(items: seq<Entry>) | NotAList(body: Json)

  /** The history the load leaves: the body as it is (the status code is not looked at). */
  function FromBody(body: Json): (h: History)
    ensures body.JArr? ==> (
      && h.Entries? && |h.items| == |body.items|
      && forall i :: 0 <= i < |body.items| ==> h.items[i] == Entry.Loaded(body.items[i]))
    ensures !body.JArr? ==> h == NotAList(body)
  {
    if body.JArr? then Entries(seq(|body.items|, i requires 0 <= i < |body.items| => Entry.Loaded(body.items[i])))
    else NotAList(body)
  }

  // ---------------------------------------------------------------------------
  // totalWithdrawn.
  // ---------------------------------------------------------------------------

  /** A JavaScript sum: a whole number, a value that is no longer a whole
      number (NaN, or a string after `+` with a string), or a crash of the render. */
  datatype Total = Sum(n: int) | NotNumeric | Crashes

  /** `w.status === "completed"`; requests submitted here carry no status. */
  predicate IsCompleted(e: Entry) {
    e.Loaded? && Get(e.v, "status") == Some(JStr("completed"))
  }

  /** An amount that `+` adds to a number as a number: a number, null (0) or a boolean (0 or 1). */
  predicate AddsAsNumber(amount: Option<Json>) {
    amount.Some? && (amount.value.JNum? || amount.value == JNull || amount.value.JBool?)
  }

  /** `sum + w.amount`. */
  function Add(acc: Total, amount: Option<Json>): (t: Total)
    ensures !acc.Sum? ==> t == acc
    ensures acc.Sum? ==> (t.Sum? <==> AddsAsNumber(amount)) && !t.Crashes?
    ensures acc.Sum? && amount.Some? && amount.value.JNum? ==> t == Sum(acc.n + amount.value.n)
  {
    match acc
    case Sum(n) =>
      (match amount
       case Some(JNum(m)) => Sum(n + m)
       case Some(JNull) => Sum(n)
       case Some(JBool(b)) => Sum(n + if b then 1 else 0)
       case _ => NotNumeric)
    case _ => acc
  }

  /** The amount an entry adds when it is completed. */
  function Amount(e: Entry): Option<Json> {
    if e.Loaded? then Get(e.v, "amount") else None
  }

  /** `.filter(completed).reduce((sum, w) => sum + w.amount, 0)`, folded from the left. */
  function Reduce(es: seq<Entry>): (t: Total)
    ensures !t.Crashes?
    ensures t.NotNumeric? <==> exists i :: 0 <= i < |es| && IsCompleted(es[i]) && !AddsAsNumber(Amount(es[i]))
    ensures (forall i :: 0 <= i < |es| ==> !IsCompleted(es[i])) ==> t == Sum(0)
  {
    if es == [] then Sum(0)
    else
      var last := es[|es| - 1];
      var acc := Reduce(es[..|es| - 1]);
      assert forall i :: 0 <= i < |es| - 1 ==> es[i] == es[..|es| - 1][i];
      if IsCompleted(last) then Add(acc, Amount(last)) else acc
  }

  /** The completed entries, in order. */
  function CompletedOnly(es: seq<Entry>): (r: seq<Entry>)
    ensures forall e :: e in r ==> e in es && IsCompleted(e)
  {
    if es == [] then []
    else
      var rest := CompletedOnly(es[..|es| - 1]);
      if IsCompleted(es[|es| - 1]) then rest + [es[|es| - 1]] else rest
  }

  /** `totalWithdrawn`: the render throws when the history is not a list or an
      entry is null (reading its `status`). */
  function TotalWithdrawn(h: History): (t: Total)
    ensures h.NotAList? ==> t == Crashes
    ensures h == Entries([]) ==> t == Sum(0)
    ensures h.Entries? && Entry.Loaded(JNull) in h.items ==> t == Crashes
    ensures h.Entries? && Entry.Loaded(JNull) !in h.items ==> t == Reduce(h.items)
  {
    match h
    case NotAList(_) => Crashes
    case Entries(es) => if Entry.Loaded(JNull) in es then Crashes else Reduce(es)
  }

  /** Only completed entries count: the total over the history equals the
      total over its completed entries. */
  lemma {:induction false} OnlyCompletedCount(es: seq<Entry>)
    ensures Reduce(es) == Reduce(CompletedOnly(es))
  {
    if es != [] {
      var init, last := es[..|es| - 1], es[|es| - 1];
      OnlyCompletedCount(init);
      if IsCompleted(last) {
        var r := CompletedOnly(init) + [last];
        assert r[..|r| - 1] == CompletedOnly(init);
      }
    }
  }

  /** With numeric amounts, the total is their ordinary sum. */
  function SumOfAmounts(es: seq<Entry>): int {
    if es == [] then 0
    else
      var last := es[|es| - 1];
      SumOfAmounts(es[..|es| - 1]) + (if IsCompleted(last) && Amount(last).Some? && Amount(last).value.JNum? then Amount(last).value.n else 0)
  }

  lemma {:induction false} NumericTotal(es: seq<Entry>)
    requires forall e :: e in es && IsCompleted(e) ==> Amount(e).Some? && Amount(e).value.JNum?
    ensures Reduce(es) == Sum(SumOfAmounts(es))
  {
    if es != [] {
      NumericTotal(es[..|es| - 1]);
    }
  }

  /** A request submitted here leaves the total as it was. */
  lemma SubmittedKeepsTotal(es: seq<Entry>, request: WithdrawRequest)
    ensures TotalWithdrawn(Entries(es + [Submitted(request)])) == TotalWithdrawn(Entries(es))
  {
    var grown := es + [Submitted(request)];
    assert grown[..|grown| - 1] == es;
    assert Entry.Loaded(JNull) in grown <==> Entry.Loaded(JNull) in es;
  }

  /** The page's history. */
  class WithdrawView {
    var history: History

    constructor ()
      ensures history == Entries([])
    {
      history := Entries([]);
    }

    /** The mount effect: the body replaces the history; when the request or
        the body parse throws, the history stays. */
    method Load(reply: Reply)
      modifies this
      ensures reply.Thrown? ==> history == old(history)
      ensures reply.Responded? ==> history == FromBody(reply.body)
    {
      match reply {
        case Thrown(_) =>
        case Responded(_, body) =>
          history := FromBody(body);
      }
    }

    /** `handleWithdrawSubmit`. Only a rendered page is submitted, and the page
        renders only while the history is a list. On an ok reply whose body
        parses, the request is appended at the end; otherwise the history stays. */
    method Submit(howMuchField: string, cardNumber: string, fullName: string, reply: Reply)
      returns (request: WithdrawRequest, accepted: bool)
      requires history.Entries?
      modifies this
      ensures request == WithdrawRequest(StringToNumber(howMuchField), cardNumber, fullName)
      ensures accepted <==> reply.Responded? && reply.ok
      ensures accepted ==> history == Entries(old(history.items) + [Submitted(request)])
      ensures !accepted ==> history == old(history)
    {
      request := WithdrawRequest(StringToNumber(howMuchField), cardNumber, fullName);
      accepted := reply.Responded? && reply.ok;
      if accepted {
        history := Entries(history.items + [Submitted(request)]);
      }
    }
  }
}
