/**
  The registration form of src/pages/RegisterPage.tsx: the password
  confirmation guard in front of `register`, the modal shown after a
  successful registration, and the 120-second verification countdown with its
  `m:ss` display and its resend button.
 */
module Register {
  import opened Maybe
  import opened Digits
  import opened JsValues
  import opened Auth

  const CountdownStart: nat := 120

  datatype Countdown = Countdown(timeLeft: int, isExpired: bool)

  /** The countdown stays within 0..120 and is expired only at 0. */
  predicate Valid(c: Countdown) {
    0 <= c.timeLeft <= CountdownStart && (c.isExpired ==> c.timeLeft == 0)
  }

  function Start(): (c: Countdown)
    ensures Valid(c) && c.timeLeft == 120 && !c.isExpired
  {
    Countdown(CountdownStart, false)
  }

  /** One run of the countdown effect: at 0 it marks the code expired, otherwise
      its interval takes one second off. */
  function Tick(c: Countdown): (d: Countdown)
    ensures Valid(c) ==> Valid(d)
    ensures c.timeLeft <= 0 ==> d == c.(isExpired := true)
    ensures c.timeLeft > 0 ==> d == c.(timeLeft := c.timeLeft - 1)
  {
    if c.timeLeft <= 0 then c.(isExpired := true) else c.(timeLeft := c.timeLeft - 1)
  }

  /** The resend button is enabled only once the code has expired. */
  predicate ResendEnabled(c: Countdown) {
    c.isExpired
  }

  /** A click on the resend button: `handleResend` runs only when it is enabled. */
  function Resend(c: Countdown): (d: Countdown)
    ensures Valid(c) ==> Valid(d)
    ensures ResendEnabled(c) ==> d == Start()
    ensures !ResendEnabled(c) ==> d == c
  {
    if ResendEnabled(c) then Start() else c
  }

  /** From a running countdown, each tick takes one second off until 0, and one more tick expires it. */
  lemma {:induction false} TicksToExpiry(c: Countdown, n: nat)
    requires Valid(c) && !c.isExpired && n <= c.timeLeft
    ensures Iterate(c, n) == Countdown(c.timeLeft - n, false)
    ensures n == c.timeLeft ==> Tick(Iterate(c, n)).isExpired
  {
    if n > 0 {
      TicksToExpiry(c, n - 1);
    }
  }

  function Iterate(c: Countdown, n: nat): Countdown {
    if n == 0 then c else Tick(Iterate(c, n - 1))
  }

  // ---------------------------------------------------------------------------
  // The `m:ss` display of the time left (formattedTime).
  // ---------------------------------------------------------------------------

  /** `s.padStart(2, "0")`. */
  function PadStart2(s: string): string {
    if |s| == 0 then "00" else if |s| == 1 then "0" + s else s
  }

  /** Whole minutes, ':' and the seconds padded to two digits. */
  function FormattedTime(t: nat): (s: string)
    ensures |s| >= 4 && s[|s| - 3] == ':'
    ensures AllDigits(s[..|s| - 3]) && AllDigits(s[|s| - 2..])
  {
    SecondsPart(t);
    var m, ss := NatToString(t / 60), PadStart2(NatToString(t % 60));
    assert (m + ":" + ss)[..|m|] == m && (m + ":" + ss)[|m| + 1..] == ss;
    m + ":" + ss
  }

  /** The index of the first ':' in `s`. */
  function ColonIndex(s: string): (r: Option<nat>)
    ensures r.Some? ==> r.value < |s| && s[r.value] == ':' && forall i :: 0 <= i < r.value ==> s[i] != ':'
    ensures r.None? ==> forall i :: 0 <= i < |s| ==> s[i] != ':'
  {
    if s == [] then None
    else if s[0] == ':' then Some(0)
    else match ColonIndex(s[1..])
      case None => None
      case Some(k) => Some(k + 1)
  }

  /** The first ':' after a colon-free prefix is the one that follows it. */
  lemma {:induction false} ColonAfter(p: string, q: string)
    requires forall i :: 0 <= i < |p| ==> p[i] != ':'
    ensures ColonIndex(p + ":" + q) == Some(|p|)
  {
    if p != [] {
      assert (p + ":" + q)[1..] == p[1..] + ":" + q;
      ColonAfter(p[1..], q);
    }
  }

  /** Reads an `m:ss` display back as a number of seconds. */
  function ParseTime(s: string): Option<nat> {
    match ColonIndex(s)
    case None => None
    case Some(k) =>
      var minutes, seconds := s[..k], s[k + 1..];
      if |minutes| > 0 && AllDigits(minutes) && |seconds| == 2 && AllDigits(seconds) && ParseDigits(seconds) < 60
      then Some(ParseDigits(minutes) * 60 + ParseDigits(seconds))
      else None
  }

  /** The seconds part is two digits whose value is `t % 60`. */
  lemma SecondsPart(t: nat)
    ensures var ss := PadStart2(NatToString(t % 60));
      |ss| == 2 && AllDigits(ss) && ParseDigits(ss) == t % 60
  {
    var s := NatToString(t % 60);
    ParseNatToString(t % 60);
    if |s| == 1 {
      ParseLeadingZero(s);
    }
  }

  /** The display reads back as the time it shows: minutes * 60 + seconds == t. */
  lemma FormattedTimeRoundTrip(t: nat)
    ensures ParseTime(FormattedTime(t)) == Some(t)
  {
    var m := NatToString(t / 60);
    var ss := PadStart2(NatToString(t % 60));
    SecondsPart(t);
    ParseNatToString(t / 60);
    ParseTimeOf(m, ss);
  }

  /** Minute digits, ':' and two second digits below 60 read back as
      minutes * 60 + seconds. */
  lemma ParseTimeOf(m: string, ss: string)
    requires |m| > 0 && AllDigits(m)
    requires |ss| == 2 && AllDigits(ss) && ParseDigits(ss) < 60
    ensures ParseTime(m + ":" + ss) == Some(ParseDigits(m) * 60 + ParseDigits(ss))
  {
    var s := m + ":" + ss;
    forall i | 0 <= i < |m| ensures m[i] != ':' {
      assert IsDigit(m[i]);
    }
    ColonAfter(m, ss);
    assert s[..|m|] == m;
    assert s[|m| + 1..] == ss;
  }

  /** Every time the countdown can show is displayed as a single minute digit,
      ':' and two second digits. */
  lemma FormattedTimeShape(t: nat)
    requires t <= CountdownStart
    ensures |FormattedTime(t)| == 4 && FormattedTime(t)[1] == ':'
  {
    SecondsPart(t);
  }

  // ---------------------------------------------------------------------------
  // Submitting the form (handleSubmit).
  // ---------------------------------------------------------------------------

  /** Whether the verification modal is shown after `register` returns `result`
      (or rethrows, `Err`): only when the body's message is exactly "success". */
  function ModalShown(result: Result<Json, string>): (shown: bool)
    ensures shown <==> result.Ok? && Get(result.value, "message") == Some(JStr("success"))
  {
    match result
    case Err(_) => false
    case Ok(body) => Prop(Some(body), "message") == Some(JStr("success"))
  }

  /** The form's state: the countdown and the modal flag. */
  class RegisterForm {
    var timeLeft: int
    var isExpired: bool
    var showModal: bool

    function Clock(): Countdown
      reads this
    {
      Countdown(timeLeft, isExpired)
    }

    constructor ()
      ensures Clock() == Start() && !showModal
    {
      timeLeft, isExpired, showModal := CountdownStart, false, false;
    }

    method OnSecond()
      modifies this
      ensures Clock() == Tick(old(Clock())) && showModal == old(showModal)
    {
      if timeLeft <= 0 {
        isExpired := true;
        return;
      }
      timeLeft := timeLeft - 1;
    }

    method ClickResend()
      modifies this
      ensures Clock() == Resend(old(Clock())) && showModal == old(showModal)
    {
      if isExpired {
        timeLeft := CountdownStart;
        isExpired := false;
      }
    }

    /** `handleSubmit`: when the two passwords differ it only alerts; otherwise
        it registers through the session store and shows or hides the modal. */
    method Submit(auth: AuthStore, email: string, password: string, confirmPassword: string, reply: Reply)
      returns (alerted: bool)
      modifies this, auth
      ensures alerted <==> password != confirmPassword
      ensures Clock() == old(Clock())
      ensures alerted ==> showModal == old(showModal) && auth.State() == old(auth.State())
      ensures !alerted ==>
        var (next, result, _) := RegisterResult(old(auth.State()), email, reply);
        auth.State() == next && showModal == ModalShown(result)
    {
      if password != confirmPassword {
        return true;
      }
      var result, _ := auth.Register(email, reply);
      match result {
        case Ok(response) =>
          if Prop(Some(response), "message") == Some(JStr("success")) {
            showModal := true;
          } else {
            showModal := false;
          }
        case Err(_) =>
          showModal := false;
      }
      return false;
    }
  }
}
