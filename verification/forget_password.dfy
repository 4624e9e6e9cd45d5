/** The forgotten-password page: an email form or a phone form, chosen by the
    page's `method` prop, and where each valid submission leads. */
module ForgetPassword {
  import opened Wrappers
  import opened Zod

  const InvalidEmail := "Please enter a valid email address"
  const PhoneTooShort := "Phone number must be at least 10 digits"

  /** `emailSchema`. */
  const EmailSchema: Schema := [Field("email", Text([EmailFormat(InvalidEmail)]), false, None)]

  /** `phoneSchema`: a lower bound only, and any characters. */
  const PhoneSchema: Schema := [Field("phone", Text([MinLen(10, PhoneTooShort)]), false, None)]

  /** A one-field schema with one check accepts a present value exactly when
      the check passes. */
  lemma SingleCheck(s: Schema, values: Values, isEmail: string -> bool)
    requires |s| == 1 && s[0].kind.Text? && |s[0].kind.checks| == 1 && !s[0].optional && s[0].default.None?
    ensures ParseObject(s, values, isEmail).issues == [] <==>
      s[0].path in values && Passes(s[0].kind.checks[0], values[s[0].path], isEmail)
  {
    ParseObjectSound(s, values, isEmail);
    OneCheck(s[0], Lookup(values, s[0].path), isEmail);
    assert AcceptsAll(s, values, isEmail) <==> Accepts(s[0], Lookup(values, s[0].path), isEmail);
  }

  lemma EmailAcceptedIff(values: Values, isEmail: string -> bool)
    ensures ParseObject(EmailSchema, values, isEmail).issues == [] <==> "email" in values && isEmail(values["email"])
  {
    SingleCheck(EmailSchema, values, isEmail);
  }

  /** Ten characters of anything pass; there is no upper bound. */
  lemma PhoneAcceptedIff(values: Values, isEmail: string -> bool)
    ensures ParseObject(PhoneSchema, values, isEmail).issues == [] <==> "phone" in values && |values["phone"]| >= 10
  {
    SingleCheck(PhoneSchema, values, isEmail);
  }

  lemma ForgetMessages(values: Values, isEmail: string -> bool)
    ensures "email" in values ==>
      FirstMessage(ParseObject(EmailSchema, values, isEmail).issues, "email") ==
        (if isEmail(values["email"]) then None else Some(InvalidEmail))
    ensures "phone" in values ==>
      FirstMessage(ParseObject(PhoneSchema, values, isEmail).issues, "phone") ==
        (if |values["phone"]| >= 10 then None else Some(PhoneTooShort))
  {
    ObjectFieldMessage(EmailSchema, values, isEmail, 0);
    ObjectFieldMessage(PhoneSchema, values, isEmail, 0);
    TextFieldMessage(EmailSchema[0], Lookup(values, "email"), isEmail);
    TextFieldMessage(PhoneSchema[0], Lookup(values, "phone"), isEmail);
  }

  /** Which form the page shows. */
  datatype Form = EmailForm | PhoneForm

  function FormFor(via: string): (f: Form)
    ensures f == EmailForm <==> via == "email"
  {
    if via == "email" then EmailForm else PhoneForm
  }

  function SchemaOf(f: Form): Schema {
    match f
    case EmailForm => EmailSchema
    case PhoneForm => PhoneSchema
  }

  /** Where a submission of the shown form leads: the sign-in page after the
      email form, the code page after the phone form, nowhere when the
      values do not pass. */
  function Submit(via: string, values: Values, isEmail: string -> bool): (next: Option<string>)
    ensures via == "email" ==>
      (next == Some("/login") <==> "email" in values && isEmail(values["email"]))
    ensures via != "email" ==>
      (next == Some("/verify-otp") <==> "phone" in values && |values["phone"]| >= 10)
    ensures next.None? <==>
      if via == "email" then !("email" in values && isEmail(values["email"]))
      else !("phone" in values && |values["phone"]| >= 10)
  {
    EmailAcceptedIff(values, isEmail);
    PhoneAcceptedIff(values, isEmail);
    var f := FormFor(via);
    if ParseObject(SchemaOf(f), values, isEmail).issues != [] then None
    else if f == EmailForm then Some("/login")
    else Some("/verify-otp")
  }
}
