/**
  One row of the withdrawal history, src/components/CardInfo.tsx: the masked
  card number, and the icon, colour and label chosen from the status.
 */
module CardInfo {
  import opened Maybe
  import opened JsValues

  const Stars: string := " **** ****"

  /** `cardNumber.slice(0, 4)`, the stars, then `cardNumber.slice(-4)` (the
      whole number when it is shorter than four). */
  function Mask(card: string): (masked: string)
    ensures |card| < 4 ==> masked == card + Stars + card
    ensures |card| >= 4 ==> (
      && |masked| == 18 && masked[..4] == card[..4]
      && masked[4..14] == Stars && masked[14..] == card[|card| - 4..])
  {
    var head := if |card| < 4 then |card| else 4;
    var tail := if |card| < 4 then 0 else |card| - 4;
    card[..head] + Stars + card[tail..]
  }

  /** The digits between the first four and the last four are not shown: two
      cards that agree on those ends have the same mask, whatever their middles. */
  lemma MaskHidesMiddle(card1: string, card2: string)
    requires |card1| >= 8 && |card2| >= 8
    requires card1[..4] == card2[..4] && card1[|card1| - 4..] == card2[|card2| - 4..]
    ensures Mask(card1) == Mask(card2)
  {
  }

  /** Every character of the mask is one of the first four, a character of the
      stars, or one of the last four. */
  lemma MaskShowsOnlyEnds(card: string, k: int)
    requires |card| >= 8 && 0 <= k < |Mask(card)|
    ensures k < 4 ==> Mask(card)[k] == card[k]
    ensures 4 <= k < 14 ==> Mask(card)[k] == Stars[k - 4]
    ensures 14 <= k ==> Mask(card)[k] == card[|card| - 18 + k]
  {
  }

  /** The three statuses the row knows. */
  datatype Known = Success | Pending | Cancelled | Other

  /** The `switch (status)`: a strict comparison with each case string. */
  function Classify(status: Option<Json>): (k: Known)
    ensures k == Success <==> status == Some(JStr("SUCCESS"))
    ensures k == Pending <==> status == Some(JStr("PENDING"))
    ensures k == Cancelled <==> status == Some(JStr("CANCELLED"))
  {
    if status == Some(JStr("SUCCESS")) then Success
    else if status == Some(JStr("PENDING")) then Pending
    else if status == Some(JStr("CANCELLED")) then Cancelled
    else Other
  }

  datatype Icon = CheckCircle(color: string) | Clock(color: string) | XCircle(color: string)

  /** `getStatusIcon`. */
  function StatusIcon(status: Option<Json>): (icon: Icon)
    ensures icon == CheckCircle("text-green-500") <==> status == Some(JStr("SUCCESS"))
    ensures icon == Clock("text-orange-500") <==> status == Some(JStr("PENDING"))
    ensures icon == XCircle("text-red-500") <==> status == Some(JStr("CANCELLED"))
    ensures icon == Clock("text-gray-500") <==> status !in {Some(JStr("SUCCESS")), Some(JStr("PENDING")), Some(JStr("CANCELLED"))}
  {
    match Classify(status)
    case Success => CheckCircle("text-green-500")
    case Pending => Clock("text-orange-500")
    case Cancelled => XCircle("text-red-500")
    case Other => Clock("text-gray-500")
  }

  /** `getStatusColor`. */
  function StatusColor(status: Option<Json>): (color: string)
    ensures color == "bg-green-100 text-green-800" <==> status == Some(JStr("SUCCESS"))
    ensures color == "bg-orange-100 text-orange-800" <==> status == Some(JStr("PENDING"))
    ensures color == "bg-red-100 text-red-800" <==> status == Some(JStr("CANCELLED"))
    ensures color == "bg-gray-100 text-gray-800" <==> status !in {Some(JStr("SUCCESS")), Some(JStr("PENDING")), Some(JStr("CANCELLED"))}
  {
    match Classify(status)
    case Success => "bg-green-100 text-green-800"
    case Pending => "bg-orange-100 text-orange-800"
    case Cancelled => "bg-red-100 text-red-800"
    case Other => "bg-gray-100 text-gray-800"
  }

  /** The translation key of the label, or None for the empty label. */
  function LabelKey(status: Option<Json>): (key: Option<string>)
    ensures key == Some("success") <==> status == Some(JStr("SUCCESS"))
    ensures key == Some("pending") <==> status == Some(JStr("PENDING"))
    ensures key == Some("cancelled") <==> status == Some(JStr("CANCELLED"))
    ensures key.None? <==> status !in {Some(JStr("SUCCESS")), Some(JStr("PENDING")), Some(JStr("CANCELLED"))}
  {
    match Classify(status)
    case Success => Some("success")
    case Pending => Some("pending")
    case Cancelled => Some("cancelled")
    case Other => None
  }

  /** The date line is shown only when `requestDate` is truthy. */
  function DateShown(requestDate: Option<Json>): (shown: bool)
    ensures shown <==> (
      && requestDate.Some? && requestDate.value != JNull && requestDate.value != JStr("")
      && requestDate.value != JBool(false) && requestDate.value != JNum(0))
  {
    Truthy(requestDate)
  }

  /** Icon, colour and label follow the same partition: a status outside the
      three gets the gray clock, the gray colour and no label, and each known
      status gets its own icon, colour and label. */
  lemma StatusMappingsAgree(status: Option<Json>)
    ensures LabelKey(status).None? <==> StatusColor(status) == "bg-gray-100 text-gray-800"
    ensures LabelKey(status).None? <==> StatusIcon(status) == Clock("text-gray-500")
    ensures LabelKey(status) == Some("success") <==> StatusColor(status) == "bg-green-100 text-green-800"
    ensures LabelKey(status) == Some("success") <==> StatusIcon(status).CheckCircle?
    ensures LabelKey(status) == Some("pending") <==> StatusColor(status) == "bg-orange-100 text-orange-800"
    ensures LabelKey(status) == Some("pending") <==> StatusIcon(status) == Clock("text-orange-500")
    ensures LabelKey(status) == Some("cancelled") <==> StatusColor(status) == "bg-red-100 text-red-800"
    ensures LabelKey(status) == Some("cancelled") <==> StatusIcon(status).XCircle?
  {
  }

  /** The statuses named in the switch, and only they, get a label. */
  lemma LabelOnlyForKnown(status: Option<Json>)
    ensures LabelKey(status).Some? <==>
      status in {Some(JStr("SUCCESS")), Some(JStr("PENDING")), Some(JStr("CANCELLED"))}
  {
  }
}
