/**
  The referrals page of src/pages/ReferralsPage.tsx: the signed-in user's
  referral link, the normalisation of the referred friends the API returns,
  and the totals shown above the list.
 */
module Referrals {
  import opened Maybe
  import opened JsValues

  const ReferralKey: string := "http://localhost:5173"
  const FailureText: string := "Failed to load referral friends. Please try again later."
  /** The payout shown per paid or pending referral. */
  const PayoutPerReferral: nat := 50

  datatype Friend = Friend(id: Option<Json>, name: Json, email: Json, joinDate: Json, status: Json, bonus: int)

  /** The referral link, or None when nobody is signed in (the page then only
      asks to log in). */
  function ReferralLink(user: Option<Json>): (link: Option<string>)
    ensures link.Some? <==> Truthy(user)
    ensures link.Some? ==> link.value == ReferralKey + "/" + ToJsString(Get(user.value, "id"))
  {
    if !Truthy(user) then None else Some(ReferralKey + "/" + ToJsString(Prop(user, "id")))
  }

  /** One item of the response, with falsy fields replaced by their defaults;
      None when the item is null (reading its `id` throws). `now` is
      `new Date().toISOString()`. */
  function NormalizeFriend(item: Json, now: string): (r: Option<Friend>)
    ensures r.None? <==> item == JNull
    ensures r.Some? ==> r.value.id == Get(item, "id")
    ensures r.Some? && now != "" ==> (
      && Truthy(Some(r.value.name)) && Truthy(Some(r.value.email))
      && Truthy(Some(r.value.joinDate)) && Truthy(Some(r.value.status)))
    ensures r.Some? && ToNumber(Get(item, "bonus")).Some? ==> r.value.bonus == ToNumber(Get(item, "bonus")).value
  {
    if item == JNull then None
    else
      var bonus := ToNumber(Get(item, "bonus"));
      Some(Friend(
        Get(item, "id"),
        Or(Get(item, "name"), JStr("Unknown")),
        Or(Get(item, "email"), JStr("N/A")),
        Or(Get(item, "joinDate"), JStr(now)),
        Or(Get(item, "status"), JStr("pending")),
        if bonus.Some? then bonus.value else 0))
  }

  /** Falsy fields get their defaults, truthy ones are kept, and `id` is passed through. */
  lemma FriendDefaults(item: Json, now: string)
    requires item != JNull
    ensures var f := NormalizeFriend(item, now).value;
      && f.id == Get(item, "id")
      && f.name == (if Truthy(Get(item, "name")) then Get(item, "name").value else JStr("Unknown"))
      && f.email == (if Truthy(Get(item, "email")) then Get(item, "email").value else JStr("N/A"))
      && f.status == (if Truthy(Get(item, "status")) then Get(item, "status").value else JStr("pending"))
      && (ToNumber(Get(item, "bonus")).None? ==> f.bonus == 0)
  {
  }

  /** `items.map(normalize)`; None when some item is null. */
  function NormalizeAll(items: seq<Json>, now: string): (r: Option<seq<Friend>>)
    ensures r.None? <==> JNull in items
    ensures r.Some? ==> |r.value| == |items|
  {
    if items == [] then Some([])
    else
      match NormalizeFriend(items[0], now)
      case None => None
      case Some(f) =>
        match NormalizeAll(items[1..], now)
        case None => None
        case Some(rest) => Some([f] + rest)
  }

  /** Normalisation keeps order, item by item. */
  lemma {:induction false} NormalizeAllPointwise(items: seq<Json>, now: string)
    ensures NormalizeAll(items, now).Some? ==>
      var fs := NormalizeAll(items, now).value;
      |fs| == |items| && forall i :: 0 <= i < |items| ==> Some(fs[i]) == NormalizeFriend(items[i], now)
  {
    if items != [] {
      NormalizeAllPointwise(items[1..], now);
      assert items == [items[0]] + items[1..];
    }
  }

  /** The friends list a response body gives: an array is normalised, an
      object's `friends` array likewise, anything else is empty. None is the
      TypeError of a null body or a null item. */
  function FriendsFromBody(body: Json, now: string): (r: Option<seq<Friend>>)
    ensures body == JNull ==> r.None?
    ensures r.None? ==> (
      || body == JNull
      || (body.JArr? && JNull in body.items)
      || (Get(body, "friends").Some? && Get(body, "friends").value.JArr? && JNull in Get(body, "friends").value.items))
  {
    if body.JArr? then NormalizeAll(body.items, now)
    else
      match ReadProp(Some(body), "friends")
      case TypeError(_) => None
      case Value(friends) =>
        if Truthy(friends) && friends.value.JArr? then NormalizeAll(friends.value.items, now)
        else Some([])
  }

  lemma BodyShapes(body: Json, now: string)
    ensures body.JArr? ==> FriendsFromBody(body, now) == NormalizeAll(body.items, now)
    ensures body.JObj? && "friends" in body.fields && body.fields["friends"].JArr? ==>
      FriendsFromBody(body, now) == NormalizeAll(body.fields["friends"].items, now)
    ensures !body.JArr? && body != JNull && !(Get(body, "friends").Some? && Get(body, "friends").value.JArr?) ==>
      FriendsFromBody(body, now) == Some([])
  {
  }

  datatype View = View(friends: seq<Friend>, isLoading: bool, error: Option<string>)

  /** The view after `fetchReferralFriends`, given the stored token and the
      reply of GET /referal/user. */
  function Fetched(token: Option<string>, reply: Reply, now: string): (v: View)
    ensures !v.isLoading
    ensures v.error.Some? ==> v.friends == [] && v.error == Some(FailureText)
    ensures token.None? || token == Some("") || reply.Thrown? || !reply.ok ==> v == View([], false, Some(FailureText))
    ensures token.Some? && token.value != "" && reply.Responded? && reply.ok && FriendsFromBody(reply.body, now).None? ==>
      v == View([], false, Some(FailureText))
  {
    if token.None? || token.value == "" then View([], false, Some(FailureText))
    else
      match reply
      case Thrown(_) => View([], false, Some(FailureText))
      case Responded(ok, body) =>
        if !ok then View([], false, Some(FailureText))
        else
          match FriendsFromBody(body, now)
          case None => View([], false, Some(FailureText))
          case Some(fs) => View(fs, false, None)
  }

  /** An accepted reply lists exactly the normalised friends and clears the error. */
  lemma FetchAccepted(token: string, body: Json, now: string)
    requires token != ""
    requires FriendsFromBody(body, now).Some?
    ensures Fetched(Some(token), Responded(true, body), now) == View(FriendsFromBody(body, now).value, false, None)
  {
  }

  // ---------------------------------------------------------------------------
  // Totals.
  // ---------------------------------------------------------------------------

  /** `friends.reduce((sum, f) => sum + (f.bonus || 0), 0)`. */
  function TotalBonuses(fs: seq<Friend>): (total: int)
    ensures fs == [] ==> total == 0
    ensures (forall i :: 0 <= i < |fs| ==> fs[i].bonus >= 0) ==> total >= 0
    ensures |fs| == 1 ==> total == fs[0].bonus
  {
    if fs == [] then 0 else TotalBonuses(fs[..|fs| - 1]) + fs[|fs| - 1].bonus
  }

  /** The total splits over any division of the list. */
  lemma {:induction false} TotalBonusesAppend(a: seq<Friend>, b: seq<Friend>)
    ensures TotalBonuses(a + b) == TotalBonuses(a) + TotalBonuses(b)
    decreases |b|
  {
    if b == [] {
      assert a + b == a;
    } else {
      assert (a + b)[..|a + b| - 1] == a + b[..|b| - 1];
      TotalBonusesAppend(a, b[..|b| - 1]);
    }
  }

  /** `friends.filter(f => f.status === status).length`. */
  function CountStatus(fs: seq<Friend>, status: string): (count: nat)
    ensures count <= |fs|
    ensures |fs| == 1 ==> (count == 1 <==> fs[0].status == JStr(status))
  {
    if fs == [] then 0 else (if fs[0].status == JStr(status) then 1 else 0) + CountStatus(fs[1..], status)
  }

  /** The count splits over any division of the list; with the one-friend case
      this fixes it as the number of friends with the status. */
  lemma {:induction false} CountStatusAppend(a: seq<Friend>, b: seq<Friend>, status: string)
    ensures CountStatus(a + b, status) == CountStatus(a, status) + CountStatus(b, status)
  {
    if a == [] {
      assert a + b == b;
    } else {
      assert (a + b)[1..] == a[1..] + b;
      CountStatusAppend(a[1..], b, status);
    }
  }

  /** Paid and pending referrals are counted apart: together they are at most the list. */
  lemma {:induction false} PaidAndPendingBounded(fs: seq<Friend>)
    ensures CountStatus(fs, "paid") + CountStatus(fs, "pending") <= |fs|
  {
    if fs != [] {
      PaidAndPendingBounded(fs[1..]);
    }
  }

  /** No friend has the status exactly when the count is 0, and every friend
      has it exactly when the count is the whole list. */
  lemma {:induction false} CountStatusExtremes(fs: seq<Friend>, status: string)
    ensures CountStatus(fs, status) == 0 <==> forall i :: 0 <= i < |fs| ==> fs[i].status != JStr(status)
    ensures CountStatus(fs, status) == |fs| <==> forall i :: 0 <= i < |fs| ==> fs[i].status == JStr(status)
  {
    if fs != [] {
      CountStatusExtremes(fs[1..], status);
      assert forall i :: 1 <= i < |fs| ==> fs[i] == fs[1..][i - 1];
    }
  }

  /** The payout shown for `count` referrals. */
  function Payout(count: nat): nat {
    count * 50
  }

  /** The paid and pending payouts together never exceed 50 per listed friend. */
  lemma PayoutsWithinList(fs: seq<Friend>)
    ensures Payout(CountStatus(fs, "paid")) + Payout(CountStatus(fs, "pending")) <= PayoutPerReferral * |fs|
  {
    PaidAndPendingBounded(fs);
  }

  /** The page's fetched state. */
  class ReferralsView {
    var friends: seq<Friend>
    var isLoading: bool
    var error: Option<string>

    function State(): View
      reads this
    {
      View(friends, isLoading, error)
    }

    constructor ()
      ensures State() == View([], true, None)
    {
      friends, isLoading, error := [], true, None;
    }

    /** Mounting the page for `user`: without a user nothing past the guard runs
        and no link is built; otherwise the link is built and the friends are fetched. */
    method Mount(user: Option<Json>, token: Option<string>, reply: Reply, now: string) returns (link: Option<string>)
      modifies this
      ensures link == ReferralLink(user)
      ensures !Truthy(user) ==> State() == old(State())
      ensures Truthy(user) ==> State() == Fetched(token, reply, now)
    {
      if !Truthy(user) {
        return None;
      }
      link := Some(ReferralKey + "/" + ToJsString(Prop(user, "id")));
      FetchReferralFriends(token, reply, now);
    }

    method FetchReferralFriends(token: Option<string>, reply: Reply, now: string)
      modifies this
      ensures State() == Fetched(token, reply, now)
    {
      isLoading := true;
      error := None;
      var loaded: Option<seq<Friend>> := None;
      if token.Some? && token.value != "" {
        match reply {
          case Thrown(_) =>
          case Responded(ok, body) =>
            if ok {
              loaded := FriendsFromBody(body, now);
            }
        }
      }
      if loaded.Some? {
        friends := loaded.value;
      } else {
        error := Some(FailureText);
        friends := [];
      }
      isLoading := false;
    }
  }
}
