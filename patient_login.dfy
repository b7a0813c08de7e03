/** The patient app's login page: phone normalisation and the two-step OTP flow (request
    a code, then verify it), with the page state it updates and the browser storage and
    navigation it writes. The result of each `fetch` is a parameter. */
module PatientLogin {
  import opened Text

  /** `num.replace(/[^0-9]/g, '')`: the ASCII digits of `s`, in order. */
  function DigitsOnly(s: string): (r: string)
    ensures AllDigits(r) && |r| <= |s|
    ensures AllDigits(s) ==> r == s
  {
    if s == [] then []
    else (if IsDigit(s[0]) then [s[0]] else []) + DigitsOnly(s[1..])
  }

  /** Nothing but the non-digits goes: the result is a subsequence of `s` holding every
      digit of `s` as often as `s` does. */
  lemma {:induction false} DigitsOnlyKeepsDigits(s: string)
    ensures IsSubsequence(DigitsOnly(s), s)
    ensures forall c :: IsDigit(c) ==> multiset(DigitsOnly(s))[c] == multiset(s)[c]
    decreases |s|
  {
    if s != [] {
      var rest := DigitsOnly(s[1..]);
      DigitsOnlyKeepsDigits(s[1..]);
      assert s == [s[0]] + s[1..];
      if IsDigit(s[0]) {
        assert DigitsOnly(s) == [s[0]] + rest;
        assert ([s[0]] + rest)[1..] == rest;
      } else {
        assert DigitsOnly(s) == rest;
        SubsequenceOfTail(rest, s);
      }
    }
  }

  lemma DigitsOnlyAfterPlus(d: string)
    requires AllDigits(d)
    ensures DigitsOnly("+" + d) == d
  {
    assert ("+" + d)[1..] == d;
  }

  predicate StartsWith91(s: string) {
    |s| >= 2 && s[0] == '9' && s[1] == '1'
  }

  /** `formatPhone` as written: the digits, with `+` in front when they already start
      with `91` and `+91` in front otherwise. */
  function FormatPhone(num: string): (phone: string)
    ensures |phone| >= 3 && phone[..3] == "+91" && AllDigits(phone[1..])
    ensures StartsWith91(DigitsOnly(num)) ==> phone[1..] == DigitsOnly(num)
    ensures !StartsWith91(DigitsOnly(num)) ==> phone[1..] == "91" + DigitsOnly(num)
  {
    var clean := DigitsOnly(num);
    if StartsWith91(clean) then "+" + clean else "+91" + clean
  }

  /** Formatting a formatted number changes nothing. */
  lemma FormatPhoneIdempotent(num: string)
    ensures FormatPhone(FormatPhone(num)) == FormatPhone(num)
  {
    var phone := FormatPhone(num);
    assert phone == "+" + phone[1..];
    DigitsOnlyAfterPlus(phone[1..]);
  }

  /** A ten-digit number that itself begins with 91 (`9123456789`, say) is taken to carry
      the country code already, so it is sent without one. */
  lemma FormatPhoneDropsCountryCode(d: string)
    requires IsLocalNumber(d) && StartsWith91(d)
    ensures FormatPhone(d) == "+" + d
    ensures FormatPhone(d) != "+91" + d
  {
    assert |"+" + d| != |"+91" + d|;
  }

  predicate IsLocalNumber(d: string) {
    |d| == 10 && AllDigits(d)
  }

  /** The normalisation the page evidently means: the country code is taken as present
      only when the digits are twelve long and start with 91. */
  function FormatPhoneFixed(num: string): (phone: string)
    ensures |phone| >= 3 && phone[..3] == "+91" && AllDigits(phone[1..])
  {
    var clean := DigitsOnly(num);
    if |clean| == 12 && StartsWith91(clean) then "+" + clean else "+91" + clean
  }

  /** Every ten-digit number gets the country code, whether it is typed bare, with `91`
      in front or with `+91` in front, and a formatted number formats to itself. */
  lemma FormatPhoneFixedForms(d: string)
    requires IsLocalNumber(d)
    ensures FormatPhoneFixed(d) == "+91" + d
    ensures FormatPhoneFixed("91" + d) == "+91" + d
    ensures FormatPhoneFixed("+91" + d) == "+91" + d
    ensures FormatPhoneFixed(FormatPhoneFixed(d)) == FormatPhoneFixed(d)
  {
    assert AllDigits("91" + d);
    assert "+91" + d == "+" + ("91" + d);
    DigitsOnlyAfterPlus("91" + d);
  }

  /** What a `fetch` followed by `response.json()` gives: a reply with its `ok` flag and
      its JSON fields, or an exception (network failure or a body that is not JSON). */
  datatype Fetched = Thrown | Reply(ok: bool, data: map<string, string>)

  /** The requests the page sends. */
  datatype OtpCall =
    | RequestCall(phone: string, role: string)
    | VerifyCall(phone: string, otp: string, role: string)

  /** `localStorage.setItem(key, data[field])`: a missing field is stored as the string
      `undefined`. */
  function Stored(data: map<string, string>, field: string): string {
    if field in data then data[field] else "undefined"
  }

  /** `data.error || fallback`: a missing or empty error falls back. */
  function ErrorOr(data: map<string, string>, fallback: string): (e: string)
    ensures e != "" || fallback == ""
  {
    if "error" in data && data["error"] != "" then data["error"] else fallback
  }

  class LoginPage {
    var phone: string
    var otp: string
    var otpSent: bool
    var isLoading: bool
    var error: string
    var storage: map<string, string>
    /** The paths passed to `router.push`. */
    var pushes: seq<string>
    /** The requests sent. */
    var calls: seq<OtpCall>

    constructor (storage0: map<string, string>)
      ensures phone == "" && otp == "" && !otpSent && !isLoading && error == ""
      ensures storage == storage0 && pushes == [] && calls == []
    {
      phone, otp, otpSent, isLoading, error := "", "", false, false, "";
      storage, pushes, calls := storage0, [], [];
    }

    method EnterPhone(s: string)
      modifies this
      ensures phone == s
      ensures otp == old(otp) && otpSent == old(otpSent) && isLoading == old(isLoading) && error == old(error)
      ensures storage == old(storage) && pushes == old(pushes) && calls == old(calls)
    {
      phone := s;
    }

    method EnterOtp(s: string)
      modifies this
      ensures otp == s
      ensures phone == old(phone) && otpSent == old(otpSent) && isLoading == old(isLoading) && error == old(error)
      ensures storage == old(storage) && pushes == old(pushes) && calls == old(calls)
    {
      otp := s;
    }

    /** `handleRequestOtp`: sends the formatted phone with role `Patient`; an ok reply
        moves to the code step, a failed reply or an exception sets the error and stays. */
    method RequestOtp(fetched: Fetched)
      modifies this
      ensures calls == old(calls) + [RequestCall(FormatPhone(old(phone)), "Patient")]
      ensures otpSent == (old(otpSent) || (fetched.Reply? && fetched.ok))
      ensures fetched.Reply? && fetched.ok ==> error == ""
      ensures fetched.Reply? && !fetched.ok ==> error == ErrorOr(fetched.data, "Failed to send OTP")
      ensures fetched.Thrown? ==> error == "Network error. Make sure backend is running on port 8080."
      ensures !isLoading
      ensures phone == old(phone) && otp == old(otp) && storage == old(storage) && pushes == old(pushes)
    {
      error := "";
      isLoading := true;
      var fullPhone := FormatPhone(phone);
      calls := calls + [RequestCall(fullPhone, "Patient")];
      match fetched {
        case Thrown =>
          error := "Network error. Make sure backend is running on port 8080.";
        case Reply(ok, data) =>
          if ok {
            otpSent := true;
          } else {
            error := ErrorOr(data, "Failed to send OTP");
          }
      }
      isLoading := false;
    }

    /** `handleVerifyOtp`: sends the formatted phone, the code and role `Patient`; an ok
        reply stores the token, role and name and goes to `/dashboard`; otherwise the
        error is set and nothing is stored. */
    method VerifyOtp(fetched: Fetched)
      modifies this
      ensures calls == old(calls) + [VerifyCall(FormatPhone(old(phone)), old(otp), "Patient")]
      ensures fetched.Reply? && fetched.ok ==>
        && storage == old(storage)["jwt_token" := Stored(fetched.data, "token")]
                                  ["user_role" := Stored(fetched.data, "role")]
                                  ["user_name" := Stored(fetched.data, "name")]
        && pushes == old(pushes) + ["/dashboard"]
        && error == ""
      ensures !(fetched.Reply? && fetched.ok) ==> storage == old(storage) && pushes == old(pushes)
      ensures fetched.Reply? && !fetched.ok ==> error == ErrorOr(fetched.data, "Invalid OTP")
      ensures fetched.Thrown? ==> error == "Network error. Please try again."
      ensures !isLoading
      ensures phone == old(phone) && otp == old(otp) && otpSent == old(otpSent)
    {
      error := "";
      isLoading := true;
      var fullPhone := FormatPhone(phone);
      calls := calls + [VerifyCall(fullPhone, otp, "Patient")];
      match fetched {
        case Thrown =>
          error := "Network error. Please try again.";
        case Reply(ok, data) =>
          if ok {
            storage := storage["jwt_token" := Stored(data, "token")];
            storage := storage["user_role" := Stored(data, "role")];
            storage := storage["user_name" := Stored(data, "name")];
            pushes := pushes + ["/dashboard"];
          } else {
            error := ErrorOr(data, "Invalid OTP");
          }
      }
      isLoading := false;
    }

    /** Whether the browser lets the form submit: the button is enabled and the visible
        field matches its `pattern` (ten digits for the phone, six for the code; the phone
        field is disabled, hence not validated, once the code was sent). */
    predicate FormAccepts()
      reads this
    {
      !isLoading && if otpSent then DigitPattern(otp, 6) else DigitPattern(phone, 10)
    }

    /** The form's submit: nothing happens unless the browser accepts the form; then
        verify once a code was sent, request one otherwise. */
    method Submit(fetched: Fetched)
      modifies this
      ensures !old(FormAccepts()) ==>
        && phone == old(phone) && otp == old(otp) && otpSent == old(otpSent)
        && isLoading == old(isLoading) && error == old(error)
        && storage == old(storage) && pushes == old(pushes) && calls == old(calls)
      ensures old(FormAccepts()) && old(otpSent) ==>
        && calls == old(calls) + [VerifyCall(FormatPhone(old(phone)), old(otp), "Patient")]
        && otpSent
        && (fetched.Reply? && fetched.ok <==> pushes == old(pushes) + ["/dashboard"])
        && (fetched.Reply? && fetched.ok ==> "jwt_token" in storage && storage["jwt_token"] == Stored(fetched.data, "token"))
        && (!(fetched.Reply? && fetched.ok) ==> storage == old(storage) && pushes == old(pushes))
      ensures old(FormAccepts()) && !old(otpSent) ==>
        && calls == old(calls) + [RequestCall(FormatPhone(old(phone)), "Patient")]
        && otpSent == (fetched.Reply? && fetched.ok)
        && storage == old(storage) && pushes == old(pushes)
    {
      if !FormAccepts() {
        return;
      }
      if otpSent {
        VerifyOtp(fetched);
      } else {
        RequestOtp(fetched);
      }
    }

    /** "Change Phone Number": back to the phone step with the code and error cleared. */
    method ChangeNumber()
      modifies this
      ensures !otpSent && error == "" && otp == ""
      ensures phone == old(phone) && isLoading == old(isLoading)
      ensures storage == old(storage) && pushes == old(pushes) && calls == old(calls)
    {
      otpSent, error, otp := false, "", "";
    }
  }

  /** The phone step as a user meets it: a ten-digit number beginning with 91, typed and
      submitted, is requested as `+` and the number, without the country code. */
  method SubmitLocalNumber91(page: LoginPage, d: string, fetched: Fetched)
    requires IsLocalNumber(d) && StartsWith91(d) && !page.otpSent && !page.isLoading
    modifies page
    ensures page.calls == old(page.calls) + [RequestCall("+" + d, "Patient")]
  {
    page.EnterPhone(d);
    FormatPhoneDropsCountryCode(d);
    page.Submit(fetched);
  }
}
