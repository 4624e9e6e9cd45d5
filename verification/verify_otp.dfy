/** The one-time-code form: a length window of four to six characters and
    the page a valid submission goes to. */
module VerifyOtp {
  import opened Wrappers
  import opened Zod

  const TooShort := "OTP must be at least 4 digits"
  const TooLong := "OTP cannot exceed 6 digits"

  /** `otpSchema`. */
  const OtpSchema: Schema := [Field("otp", Text([MinLen(4, TooShort), MaxLen(6, TooLong)]), false, None)]

  /** A code is accepted exactly when it has four to six characters, whatever
      they are: no check asks for digits. */
  lemma OtpAcceptedIff(values: Values, isEmail: string -> bool)
    ensures ParseObject(OtpSchema, values, isEmail).issues == [] <==>
      "otp" in values && 4 <= |values["otp"]| <= 6
  {
    ParseObjectSound(OtpSchema, values, isEmail);
    var c := OtpSchema[0].kind.checks;
    if "otp" in values {
      assert (forall i :: 0 <= i < |c| ==> Passes(c[i], values["otp"], isEmail)) <==>
        Passes(c[0], values["otp"], isEmail) && Passes(c[1], values["otp"], isEmail);
    }
    assert AcceptsAll(OtpSchema, values, isEmail) <==> Accepts(OtpSchema[0], Lookup(values, "otp"), isEmail);
  }

  /** The message shown: too short below four characters, too long above
      six, none in between. */
  lemma OtpMessage(values: Values, isEmail: string -> bool)
    ensures FirstMessage(ParseObject(OtpSchema, values, isEmail).issues, "otp") ==
      if "otp" !in values then Some("Required")
      else if |values["otp"]| < 4 then Some(TooShort)
      else if |values["otp"]| > 6 then Some(TooLong)
      else None
  {
    ObjectFieldMessage(OtpSchema, values, isEmail, 0);
    TextFieldMessage(OtpSchema[0], Lookup(values, "otp"), isEmail);
    if "otp" in values && |values["otp"]| > 6 {
      FirstFailure(OtpSchema[0].kind.checks, values["otp"], isEmail, 1);
    }
  }

  /** Where a submission leads: a code that passes goes on to the
      reset-password page; otherwise the form stays. */
  function SubmitOtp(values: Values): (next: Option<string>)
    ensures next.Some? <==> "otp" in values && 4 <= |values["otp"]| <= 6
    ensures next.Some? ==> next.value == "/reset-password"
  {
    OtpAcceptedIff(values, _ => true);
    if ParseObject(OtpSchema, values, _ => true).issues == [] then Some("/reset-password") else None
  }
}
