/** The two side decisions taken when the page's script has loaded: auto-login and device activation.
    Everything they read from the settings store, the main window and the download engine is a parameter. */
module Decisions {
  import opened Wrappers

  // ---- Python's int() on the userid the page reports ----

  predicate IsDigit(c: char) { '0' <= c <= '9' }

  predicate IsDigits(s: string) {
    |s| > 0 && forall i :: 0 <= i < |s| ==> IsDigit(s[i])
  }

  /** Value of a string of decimal digits, most significant digit first. */
  function DigitsValue(s: string): nat
    requires forall i :: 0 <= i < |s| ==> IsDigit(s[i])
  {
    if s == [] then 0
    else
      assert IsDigit(s[|s| - 1]);
      DigitsValue(s[..|s| - 1]) * 10 + (s[|s| - 1] as int - '0' as int)
  }

  /** int(s): an optional sign followed by decimal digits; None where int() raises ValueError. */
  function ParseInt(s: string): (r: Option<int>)
    ensures r.Some? <==> IsDigits(s) || (|s| > 1 && (s[0] == '-' || s[0] == '+') && IsDigits(s[1..]))
    ensures r.Some? && IsDigits(s) ==> r.value >= 0
  {
    if |s| > 0 && (s[0] == '-' || s[0] == '+') && IsDigits(s[1..]) then
      Some(if s[0] == '-' then -(DigitsValue(s[1..]) as int) else DigitsValue(s[1..]))
    else if IsDigits(s) then Some(DigitsValue(s))
    else None
  }

  /** Decimal rendering of an integer: the reference that ParseInt inverts. */
  function Decimal(n: int): (s: string)
    ensures n >= 0 ==> IsDigits(s)
    ensures n < 0 ==> |s| > 1 && s[0] == '-' && IsDigits(s[1..])
    decreases if n < 0 then -n + 1 else n
  {
    if n < 0 then "-" + Decimal(-n)
    else if n < 10 then [('0' as int + n) as char]
    else Decimal(n / 10) + [('0' as int + n % 10) as char]
  }

  lemma {:induction false} DigitsValueOfDecimal(n: nat)
    ensures DigitsValue(Decimal(n)) == n
    decreases n
  {
    if n >= 10 {
      var s := Decimal(n);
      assert s[..|s| - 1] == Decimal(n / 10);
      DigitsValueOfDecimal(n / 10);
    }
  }

  /** int(str(n)) == n for every integer n. */
  lemma ParseIntOfDecimal(n: int)
    ensures ParseInt(Decimal(n)) == Some(n)
  {
    var s := Decimal(n);
    if n < 0 {
      assert s[1..] == Decimal(-n);
      DigitsValueOfDecimal(-n);
      assert ParseInt(s) == Some(-(DigitsValue(s[1..]) as int));
    } else {
      DigitsValueOfDecimal(n);
      assert IsDigit(s[0]);
      assert ParseInt(s) == Some(DigitsValue(s));
    }
  }

  /** A zero in front of a string of digits does not change its value. */
  lemma {:induction false} DigitsValueLeadingZero(s: string)
    requires forall i :: 0 <= i < |s| ==> IsDigit(s[i])
    ensures DigitsValue("0" + s) == DigitsValue(s)
    decreases |s|
  {
    if s != [] {
      var z := "0" + s;
      assert z[..|z| - 1] == "0" + s[..|s| - 1];
      assert z[|z| - 1] == s[|s| - 1];
      DigitsValueLeadingZero(s[..|s| - 1]);
    }
  }

  /** int() ignores leading zeros and a leading '+', and '-' negates: int("007") == 7,
      int("+5") == 5, int("-0") == 0. */
  lemma ParseIntSignsAndZeros(s: string)
    requires IsDigits(s)
    ensures ParseInt("0" + s) == ParseInt(s)
    ensures ParseInt("+" + s) == ParseInt(s)
    ensures ParseInt("-" + s) == Some(-ParseInt(s).value)
  {
    assert ("+" + s)[1..] == s;
    assert ("-" + s)[1..] == s;
    DigitsValueLeadingZero(s);
  }

  // ---- tryLogin ----

  datatype Credentials = Credentials(username: string, password: string)

  /** The credentials to log in with, if the page is the login page, auto-login is
      enabled and both saved credentials are non-empty. */
  function TryLogin(onLoginPage: bool, autologin: bool, username: string, password: string): (r: Option<Credentials>)
    ensures r.Some? <==> onLoginPage && autologin && username != "" && password != ""
    ensures r.Some? ==> r.value.username == username && r.value.password == password
  {
    if onLoginPage && autologin && username != "" && password != "" then
      Some(Credentials(username, password))
    else None
  }

  // ---- tryActivate ----

  /** What the page reports once its script has loaded. */
  datatype Payload = Payload(userid: string, peerids: seq<string>)

  /** The download engine's activation status: bound account (0 when unbound), status code,
      activation code and peer id. */
  datatype ActivationStatus = ActivationStatus(userid: int, status: int, code: string, peerid: string)

  datatype ActivationOutcome =
    | NoActivation            // nothing shown, nothing emitted
    | WarnEtmDisabled         // warning dialog: the engine is not running
    | Activate(code: string)  // sigActivateDevice(code)
    | WarnWrongAccount        // warning dialog: logged-in account is not the bound one
    | NotifyPeerId(peerid: string)  // sigNotifyPeerId(peerid)
    | UserIdNotInteger        // int() raised ValueError on the page's userid

  predicate HasActivationCode(etm: ActivationStatus) { etm.status == 0 && etm.code != "" }

  function TryActivate(onV3Page: bool, payload: Payload, etm: ActivationStatus): (r: ActivationOutcome)
    // off the v3 page, or when the page has no logged-in user, nothing happens
    ensures !onV3Page || payload.userid == "" ==> r == NoActivation
    // a pending activation code wins over every account check, bound or not
    ensures r.Activate? <==> onV3Page && payload.userid != "" && HasActivationCode(etm)
    ensures r.Activate? ==> r.code == etm.code
    ensures r == WarnEtmDisabled <==> onV3Page && payload.userid != "" && etm.userid == 0 && etm.status == -1
    // an unbound device never has its peer id announced
    ensures r.NotifyPeerId? ==> etm.userid != 0 && r.peerid == etm.peerid
    // on a bound device without a code: a mismatching account warns, the matching one announces the peer id
    ensures onV3Page && payload.userid != "" && etm.userid != 0 && !HasActivationCode(etm) ==>
      match ParseInt(payload.userid)
      case None => r == UserIdNotInteger
      case Some(id) => r == (if id == etm.userid then NotifyPeerId(etm.peerid) else WarnWrongAccount)
    // an unbound device that is neither disabled nor holding a code: nothing happens, the userid is not even parsed
    ensures onV3Page && payload.userid != "" && etm.userid == 0 && etm.status != -1 && !HasActivationCode(etm) ==>
      r == NoActivation
  {
    if !onV3Page then NoActivation
    else if payload.userid == "" then NoActivation
    else if etm.userid == 0 then
      if etm.status == -1 then WarnEtmDisabled
      else if etm.status == 0 && etm.code != "" then Activate(etm.code)
      else NoActivation
    else if etm.status == 0 && etm.code != "" then Activate(etm.code)
    else
      match ParseInt(payload.userid)
      case None => UserIdNotInteger
      case Some(id) =>
        if etm.userid != id then WarnWrongAccount
        else NotifyPeerId(etm.peerid)
  }

  /** The peer id is announced whether or not it is among the page's peer ids:
      the list only decides whether a warning is logged. */
  lemma NotifyIgnoresPeerList(onV3Page: bool, userid: string, peerids1: seq<string>, peerids2: seq<string>, etm: ActivationStatus)
    ensures TryActivate(onV3Page, Payload(userid, peerids1), etm) == TryActivate(onV3Page, Payload(userid, peerids2), etm)
  {
  }
}
