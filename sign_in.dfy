/**
 * The sign-in screen (app/sign-in.tsx): the mobile-number field filter and
 * the login handler's length check and "+880" prefix.
 */
module SignIn {
  import opened DigitInput

  /** Bangladesh's country code, shown before the field and put in front of the number. */
  const CountryPrefix: string := "+880"
  /** Digits of a local mobile number. */
  const MobileLength: nat := 10

  /** `onChangeText`: keep the digits, at most ten of them. */
  function FilterMobile(text: string): (r: string)
    ensures AllDigits(r) && |r| <= MobileLength
    ensures r <= KeepDigits(text)
  {
    Sanitize(text, MobileLength)
  }

  /** What `handleLogin` does, given whether `requestOtp` succeeds. */
  datatype LoginResult =
    | WrongLength                       // alert; `requestOtp` is not called
    | OtpSent(phoneNumber: string)      // `requestOtp(phoneNumber)` resolved: go to the OTP screen
    | RequestFailed(phoneNumber: string) // `requestOtp(phoneNumber)` threw: alert

  function HandleLogin(mobile: string, requestSucceeds: bool): (r: LoginResult)
    ensures r.WrongLength? <==> |mobile| != MobileLength
    ensures !r.WrongLength? ==>
              |r.phoneNumber| == 14 && r.phoneNumber[..4] == CountryPrefix && r.phoneNumber[4..] == mobile
    ensures !r.WrongLength? ==> (r.OtpSent? <==> requestSucceeds)
  {
    if |mobile| != MobileLength then WrongLength
    else
      var fullMobile := CountryPrefix + mobile;
      if requestSucceeds then OtpSent(fullMobile) else RequestFailed(fullMobile)
  }

  /** Filtering the field twice is the same as filtering it once. */
  lemma FilterMobileIdempotent(text: string)
    ensures FilterMobile(FilterMobile(text)) == FilterMobile(text)
  {
    SanitizeIdempotent(text, MobileLength);
  }

  /** Whatever was typed, a request that goes out carries "+880" and ten digits. */
  lemma LoginSendsDigits(text: string, requestSucceeds: bool)
    ensures var r := HandleLogin(FilterMobile(text), requestSucceeds);
            !r.WrongLength? ==> r.phoneNumber[..4] == "+880" && AllDigits(r.phoneNumber[4..]) && |r.phoneNumber| == 14
  {
  }
}
