/**
 * The OTP entry screen (app/otp-screen.tsx): the code field filter, the
 * verify handler's length guard and request, and the resend button's
 * cooldown flag.
 */
module OtpEntry {
  import opened DigitInput

  /** Digits in a one-time code. */
  const OtpLength: nat := 6

  /** `onChangeText`: keep the digits, at most six of them. */
  function FilterOtp(text: string): (r: string)
    ensures AllDigits(r) && |r| <= OtpLength
    ensures r <= KeepDigits(text)
  {
    Sanitize(text, OtpLength)
  }

  /** How a `fetch` call ends. */
  datatype HttpOutcome = Ok | NotOk | NetworkError

  /** The body of `POST /api/auth/verify-otp`: `{ phoneNumber, Otp }`. */
  datatype VerifyRequest = VerifyRequest(phoneNumber: string, otp: string)

  datatype VerifyResult =
    | WrongLength                          // alert "OTP must be 6 digits"; nothing is sent
    | Sent(request: VerifyRequest, outcome: HttpOutcome)

  /** `handleVerify` for the decoded mobile number and the code in the field. */
  function HandleVerify(mobile: string, otp: string, outcome: HttpOutcome): (r: VerifyResult)
    ensures r.WrongLength? <==> |otp| != OtpLength
    ensures r.Sent? ==> r.request == VerifyRequest(mobile, otp) && r.outcome == outcome
  {
    if |otp| != OtpLength then WrongLength else Sent(VerifyRequest(mobile, otp), outcome)
  }

  /** Filtering the field twice is the same as filtering it once. */
  lemma FilterOtpIdempotent(text: string)
    ensures FilterOtp(FilterOtp(text)) == FilterOtp(text)
  {
    SanitizeIdempotent(text, OtpLength);
  }

  /** A code typed into the field reaches the server only as six digits. */
  lemma VerifySendsSixDigits(mobile: string, text: string, outcome: HttpOutcome)
    ensures var r := HandleVerify(mobile, FilterOtp(text), outcome);
            r.Sent? ==> AllDigits(r.request.otp) && |r.request.otp| == 6
  {
  }

  /** What a press of "Resend OTP" leads to. */
  datatype ResendResult =
    | ButtonDisabled                          // the button is disabled: the handler does not run
    | Resent(phoneNumber: string, outcome: HttpOutcome)

  /** The OTP screen's state. */
  class OtpScreen {
    const mobile: string
    var otp: string
    var resendDisabled: bool
    /** Cooldown timers scheduled and not yet fired. */
    var pendingCooldowns: nat

    /** The code field only ever holds what the filter let through. */
    ghost predicate Valid()
      reads this
    {
      AllDigits(otp) && |otp| <= OtpLength
    }

    constructor (mobile: string)
      ensures Valid()
      ensures this.mobile == mobile && otp == "" && !resendDisabled && pendingCooldowns == 0
    {
      this.mobile := mobile;
      otp := "";
      resendDisabled := false;
      pendingCooldowns := 0;
    }

    method ChangeText(text: string)
      modifies this`otp
      ensures Valid() && otp == FilterOtp(text)
    {
      otp := FilterOtp(text);
    }

    /** The "Verify OTP" button. */
    method PressVerify(outcome: HttpOutcome) returns (r: VerifyResult)
      requires Valid()
      ensures r == HandleVerify(mobile, otp, outcome)
      ensures r.Sent? ==> AllDigits(r.request.otp)
    {
      if |otp| != OtpLength {
        return WrongLength;
      }
      r := Sent(VerifyRequest(mobile, otp), outcome);
    }

    /**
     * The "Resend OTP" button: `handleResend` disables the button before the
     * request and schedules its re-enabling whatever the request's outcome.
     */
    method PressResend(outcome: HttpOutcome) returns (r: ResendResult)
      modifies this`resendDisabled, this`pendingCooldowns
      ensures old(resendDisabled) ==> r == ButtonDisabled && unchanged(this)
      ensures !old(resendDisabled) ==>
                && r == Resent(mobile, outcome)
                && resendDisabled
                && pendingCooldowns == old(pendingCooldowns) + 1
    {
      if resendDisabled {
        return ButtonDisabled;
      }
      resendDisabled := true;
      r := Resent(mobile, outcome);
      pendingCooldowns := pendingCooldowns + 1;
    }

    /** A scheduled 30-second cooldown fires and re-enables the button. */
    method CooldownElapsed()
      requires pendingCooldowns > 0
      modifies this`resendDisabled, this`pendingCooldowns
      ensures !resendDisabled && pendingCooldowns == old(pendingCooldowns) - 1
    {
      pendingCooldowns := pendingCooldowns - 1;
      resendDisabled := false;
    }
  }
}
