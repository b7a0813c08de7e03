/** The scanning centre's login form: the two-step OTP flow simulated in the browser.
    A request succeeds for any ten-digit phone number and a verify for the fixed demo
    code only, which stores a fixed token. Each step's outcome is decided when its
    one-second timer fires; the model applies the whole step at once. */
module ScanningLogin {
  import opened Text

  const MagicOtp := "123456"
  const DemoToken := "fake_scanning_jwt_token_otp"
  const BadPhoneError := "Please enter a valid 10-digit phone number."
  const BadOtpError := "Invalid OTP (hint: use 123456 for demo)"

  /** `phone.match(/^[0-9]{10}$/)`. */
  predicate IsTenDigits(phone: string) {
    |phone| == 10 && AllDigits(phone)
  }

  class LoginForm {
    var phone: string
    var otp: string
    var otpSent: bool
    var isLoading: bool
    var error: string
    var storage: map<string, string>

    constructor (storage0: map<string, string>)
      ensures phone == "" && otp == "" && !otpSent && !isLoading && error == "" && storage == storage0
    {
      phone, otp, otpSent, isLoading, error := "", "", false, false, "";
      storage := storage0;
    }

    method EnterPhone(s: string)
      modifies this
      ensures phone == s
      ensures otp == old(otp) && otpSent == old(otpSent) && isLoading == old(isLoading)
      ensures error == old(error) && storage == old(storage)
    {
      phone := s;
    }

    method EnterOtp(s: string)
      modifies this
      ensures otp == s
      ensures phone == old(phone) && otpSent == old(otpSent) && isLoading == old(isLoading)
      ensures error == old(error) && storage == old(storage)
    {
      otp := s;
    }

    /** `handleRequestOtp`: the code step opens exactly for a ten-digit phone; any other
        phone gets the validation error. Nothing is stored. */
    method RequestOtp()
      modifies this
      ensures otpSent == (old(otpSent) || IsTenDigits(phone))
      ensures error == (if IsTenDigits(phone) then "" else BadPhoneError)
      ensures !isLoading
      ensures phone == old(phone) && otp == old(otp) && storage == old(storage)
    {
      error := "";
      isLoading := true;
      isLoading := false;
      if IsTenDigits(phone) {
        otpSent := true;
      } else {
        error := BadPhoneError;
      }
    }

    /** `handleVerifyOtp`: the demo code stores the demo token under `jwt_token`; any
        other code sets the hint error and stores nothing. */
    method VerifyOtp()
      modifies this
      ensures otp == MagicOtp ==> storage == old(storage)["jwt_token" := DemoToken] && error == ""
      ensures otp != MagicOtp ==> storage == old(storage) && error == BadOtpError
      ensures !isLoading
      ensures phone == old(phone) && otp == old(otp) && otpSent == old(otpSent)
    {
      error := "";
      isLoading := true;
      isLoading := false;
      if otp == MagicOtp {
        storage := storage["jwt_token" := DemoToken];
      } else {
        error := BadOtpError;
      }
    }

    /** Whether the browser lets the form submit: the button is enabled and the visible
        field matches its `pattern` (ten digits for the phone, six for the code; the phone
        field is disabled, hence not validated, once the code was sent). */
    predicate FormAccepts()
      reads this
    {
      !isLoading && if otpSent then DigitPattern(otp, 6) else DigitPattern(phone, 10)
    }

    /** The form's submit: nothing happens unless the browser accepts the form; then
        verify once a code was sent, request one otherwise. Because the browser already
        demands ten digits, a submitted phone step always opens the code step and the
        phone error of `RequestOtp` is never shown. */
    method Submit()
      modifies this
      ensures !old(FormAccepts()) ==>
        && phone == old(phone) && otp == old(otp) && otpSent == old(otpSent)
        && isLoading == old(isLoading) && error == old(error) && storage == old(storage)
      ensures old(FormAccepts()) && old(otpSent) ==>
        && otpSent && !isLoading
        && (otp == MagicOtp ==> storage == old(storage)["jwt_token" := DemoToken] && error == "")
        && (otp != MagicOtp ==> storage == old(storage) && error == BadOtpError)
      ensures old(FormAccepts()) && !old(otpSent) ==>
        && otpSent && error == "" && !isLoading && storage == old(storage)
      ensures error != BadPhoneError || old(error) == BadPhoneError
      ensures phone == old(phone) && otp == old(otp)
    {
      if !FormAccepts() {
        return;
      }
      if otpSent {
        VerifyOtp();
      } else {
        RequestOtp();
      }
    }

    /** "Change Phone Number": back to the phone step with the code and error cleared. */
    method ChangeNumber()
      modifies this
      ensures !otpSent && error == "" && otp == ""
      ensures phone == old(phone) && isLoading == old(isLoading) && storage == old(storage)
    {
      otpSent, error, otp := false, "", "";
    }
  }

  /** The whole flow: a ten-digit phone, then the demo code, ends with the demo token
      stored and no error. */
  method DemoLogin(form: LoginForm, phone: string)
    requires IsTenDigits(phone) && !form.isLoading
    modifies form
    ensures form.storage == old(form.storage)["jwt_token" := DemoToken]
    ensures form.otpSent && form.error == "" && !form.isLoading
  {
    form.ChangeNumber();
    form.EnterPhone(phone);
    form.Submit();
    form.EnterOtp(MagicOtp);
    assert DigitPattern(MagicOtp, 6);
    form.Submit();
  }
}
