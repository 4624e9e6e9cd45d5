/** The user schemas of the validation library: the full form and its
    `.partial()` edit variant. */
module UserSchemas {
  import opened Wrappers
  import opened Zod

  const NameTooShort := "Name must be at least 2 characters"
  const InvalidEmail := "Please enter a valid email"

  /** `userFormSchema`. */
  const UserFormSchema: Schema := [
    Field("name", Text([MinLen(2, NameTooShort)]), false, None),
    Field("email", Text([EmailFormat(InvalidEmail)]), false, None),
    Field("role", OneOf(["admin", "user", "manager"]), false, None),
    Field("department", Text([]), true, None)]

  /** `userEditSchema`. */
  const UserEditSchema: Schema := Partial(UserFormSchema)

  predicate NameRule(v: Option<string>) {
    v.Some? && |v.value| >= 2
  }

  predicate EmailRule(v: Option<string>, isEmail: string -> bool) {
    v.Some? && isEmail(v.value)
  }

  predicate RoleRule(v: Option<string>) {
    v.Some? && (v.value == "admin" || v.value == "user" || v.value == "manager")
  }

  /** The rules of the full form, written out: the department may be
      anything or missing. */
  predicate UserFormValid(values: Values, isEmail: string -> bool) {
    && NameRule(Lookup(values, "name"))
    && EmailRule(Lookup(values, "email"), isEmail)
    && RoleRule(Lookup(values, "role"))
  }

  /** The rules of the edit form: each field may be missing, and a field
      that is present obeys the full form's rule. */
  predicate UserEditValid(values: Values, isEmail: string -> bool) {
    && ("name" in values ==> NameRule(Lookup(values, "name")))
    && ("email" in values ==> EmailRule(Lookup(values, "email"), isEmail))
    && ("role" in values ==> RoleRule(Lookup(values, "role")))
  }

  lemma FourFields(s: Schema, values: Values, isEmail: string -> bool)
    requires |s| == 4
    ensures AcceptsAll(s, values, isEmail) <==>
      && Accepts(s[0], Lookup(values, s[0].path), isEmail)
      && Accepts(s[1], Lookup(values, s[1].path), isEmail)
      && Accepts(s[2], Lookup(values, s[2].path), isEmail)
      && Accepts(s[3], Lookup(values, s[3].path), isEmail)
  {
  }

  /** Each field of the full form accepts exactly what its rule allows. */
  lemma FullFieldRules(values: Values, isEmail: string -> bool)
    ensures Accepts(UserFormSchema[0], Lookup(values, "name"), isEmail) <==> NameRule(Lookup(values, "name"))
    ensures Accepts(UserFormSchema[1], Lookup(values, "email"), isEmail) <==> EmailRule(Lookup(values, "email"), isEmail)
    ensures Accepts(UserFormSchema[2], Lookup(values, "role"), isEmail) <==> RoleRule(Lookup(values, "role"))
    ensures Accepts(UserFormSchema[3], Lookup(values, "department"), isEmail)
  {
    OneCheck(UserFormSchema[0], Lookup(values, "name"), isEmail);
    OneCheck(UserFormSchema[1], Lookup(values, "email"), isEmail);
  }

  /** The full form passes exactly when its rules hold. */
  lemma UserFormAcceptedIff(values: Values, isEmail: string -> bool)
    ensures ParseObject(UserFormSchema, values, isEmail).issues == [] <==> UserFormValid(values, isEmail)
  {
    var s := UserFormSchema;
    ParseObjectSound(s, values, isEmail);
    FourFields(s, values, isEmail);
    FullFieldRules(values, isEmail);
  }

  /** The k-th field of the edit form accepts a missing value, and a present
      one exactly when the full form's field does. */
  lemma EditField(values: Values, isEmail: string -> bool, k: nat)
    requires k < 4
    ensures UserEditSchema[k].path == UserFormSchema[k].path
    ensures Accepts(UserEditSchema[k], Lookup(values, UserFormSchema[k].path), isEmail) <==>
      (UserFormSchema[k].path in values ==> Accepts(UserFormSchema[k], Lookup(values, UserFormSchema[k].path), isEmail))
  {
    PartialAccepts(UserFormSchema[k], Lookup(values, UserFormSchema[k].path), isEmail);
  }

  /** The edit form passes exactly when every present field obeys its rule. */
  lemma UserEditAcceptedIff(values: Values, isEmail: string -> bool)
    ensures ParseObject(UserEditSchema, values, isEmail).issues == [] <==> UserEditValid(values, isEmail)
  {
    var s := UserEditSchema;
    ParseObjectSound(s, values, isEmail);
    FourFields(s, values, isEmail);
    EditField(values, isEmail, 0);
    EditField(values, isEmail, 1);
    EditField(values, isEmail, 2);
    EditField(values, isEmail, 3);
    FullFieldRules(values, isEmail);
  }

  /** The empty object is a valid edit, and every valid full form is a
      valid edit. */
  lemma EditWeakerThanForm(values: Values, isEmail: string -> bool)
    ensures ParseObject(UserEditSchema, map[], isEmail).issues == []
    ensures ParseObject(UserFormSchema, values, isEmail).issues == [] ==>
      ParseObject(UserEditSchema, values, isEmail).issues == []
  {
    PartialAcceptsEmpty(UserFormSchema, isEmail);
    UserFormAcceptedIff(values, isEmail);
    UserEditAcceptedIff(values, isEmail);
  }

  /** A role outside the three options is rejected by both schemas with
      zod's enum message. */
  lemma UnknownRoleMessage(values: Values, isEmail: string -> bool)
    requires "role" in values && values["role"] !in ["admin", "user", "manager"]
    ensures FirstMessage(ParseObject(UserFormSchema, values, isEmail).issues, "role") ==
      Some(EnumMessage(["admin", "user", "manager"], values["role"]))
    ensures FirstMessage(ParseObject(UserEditSchema, values, isEmail).issues, "role") ==
      Some(EnumMessage(["admin", "user", "manager"], values["role"]))
  {
    ObjectFieldMessage(UserFormSchema, values, isEmail, 2);
    ObjectFieldMessage(UserEditSchema, values, isEmail, 2);
  }
}
