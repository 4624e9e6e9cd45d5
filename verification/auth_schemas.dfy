/** The sign-in and registration schemas of the validation library. Neither
    puts an upper bound on any length. */
module AuthSchemas {
  import opened Wrappers
  import opened Zod

  const InvalidEmail := "Please enter a valid email"
  const PasswordRequired := "Password is required"
  const NameTooShort := "Name must be at least 2 characters"
  const PasswordTooShort := "Password must be at least 6 characters"

  const EmailField := Field("email", Text([EmailFormat(InvalidEmail)]), false, None)

  /** `loginSchema`. */
  const LoginSchema: Schema := [
    EmailField,
    Field("password", Text([MinLen(1, PasswordRequired)]), false, None)]

  /** `registerSchema`. */
  const RegisterSchema: Schema := [
    Field("name", Text([MinLen(2, NameTooShort)]), false, None),
    EmailField,
    Field("password", Text([MinLen(6, PasswordTooShort)]), false, None)]

  /** What sign-in demands, written out. */
  predicate LoginValid(values: Values, isEmail: string -> bool) {
    && "email" in values && isEmail(values["email"])
    && "password" in values && |values["password"]| >= 1
  }

  /** What registration demands, written out. */
  predicate RegisterValid(values: Values, isEmail: string -> bool) {
    && "name" in values && |values["name"]| >= 2
    && "email" in values && isEmail(values["email"])
    && "password" in values && |values["password"]| >= 6
  }

  /** Sign-in passes exactly when the email has the format and the password
      is non-empty. */
  lemma LoginAcceptedIff(values: Values, isEmail: string -> bool)
    ensures ParseObject(LoginSchema, values, isEmail).issues == [] <==> LoginValid(values, isEmail)
  {
    var s := LoginSchema;
    ParseObjectSound(s, values, isEmail);
    OneCheck(s[0], Lookup(values, "email"), isEmail);
    OneCheck(s[1], Lookup(values, "password"), isEmail);
    assert AcceptsAll(s, values, isEmail) <==>
      Accepts(s[0], Lookup(values, s[0].path), isEmail) && Accepts(s[1], Lookup(values, s[1].path), isEmail);
  }

  /** Registration passes exactly when the name has two characters, the
      email has the format and the password has six characters. */
  lemma RegisterAcceptedIff(values: Values, isEmail: string -> bool)
    ensures ParseObject(RegisterSchema, values, isEmail).issues == [] <==> RegisterValid(values, isEmail)
  {
    var s := RegisterSchema;
    ParseObjectSound(s, values, isEmail);
    OneCheck(s[0], Lookup(values, "name"), isEmail);
    OneCheck(s[1], Lookup(values, "email"), isEmail);
    OneCheck(s[2], Lookup(values, "password"), isEmail);
    assert AcceptsAll(s, values, isEmail) <==>
      && Accepts(s[0], Lookup(values, s[0].path), isEmail)
      && Accepts(s[1], Lookup(values, s[1].path), isEmail)
      && Accepts(s[2], Lookup(values, s[2].path), isEmail);
  }

  /** No length is bounded above: lengthening an accepted name or password
      keeps the form accepted. */
  lemma NoUpperBound(values: Values, isEmail: string -> bool, more: string)
    ensures LoginValid(values, isEmail) ==>
      LoginValid(values["password" := values["password"] + more], isEmail)
    ensures RegisterValid(values, isEmail) ==>
      RegisterValid(values["name" := values["name"] + more]["password" := values["password"] + more], isEmail)
  {
  }

  /** The message under each sign-in field. */
  lemma LoginMessages(values: Values, isEmail: string -> bool)
    ensures FirstMessage(ParseObject(LoginSchema, values, isEmail).issues, "email") ==
      if "email" !in values then Some("Required")
      else if !isEmail(values["email"]) then Some(InvalidEmail)
      else None
    ensures FirstMessage(ParseObject(LoginSchema, values, isEmail).issues, "password") ==
      if "password" !in values then Some("Required")
      else if values["password"] == "" then Some(PasswordRequired)
      else None
  {
    var s := LoginSchema;
    ObjectFieldMessage(s, values, isEmail, 0);
    ObjectFieldMessage(s, values, isEmail, 1);
    TextFieldMessage(s[0], Lookup(values, "email"), isEmail);
    TextFieldMessage(s[1], Lookup(values, "password"), isEmail);
  }

  /** The message under each registration field. */
  lemma RegisterMessages(values: Values, isEmail: string -> bool)
    ensures FirstMessage(ParseObject(RegisterSchema, values, isEmail).issues, "name") ==
      if "name" !in values then Some("Required")
      else if |values["name"]| < 2 then Some(NameTooShort)
      else None
    ensures FirstMessage(ParseObject(RegisterSchema, values, isEmail).issues, "email") ==
      if "email" !in values then Some("Required")
      else if !isEmail(values["email"]) then Some(InvalidEmail)
      else None
    ensures FirstMessage(ParseObject(RegisterSchema, values, isEmail).issues, "password") ==
      if "password" !in values then Some("Required")
      else if |values["password"]| < 6 then Some(PasswordTooShort)
      else None
  {
    var s := RegisterSchema;
    ObjectFieldMessage(s, values, isEmail, 0);
    ObjectFieldMessage(s, values, isEmail, 1);
    ObjectFieldMessage(s, values, isEmail, 2);
    TextFieldMessage(s[0], Lookup(values, "name"), isEmail);
    TextFieldMessage(s[1], Lookup(values, "email"), isEmail);
    TextFieldMessage(s[2], Lookup(values, "password"), isEmail);
  }
}
