/** The create/edit user form of the user-management module: the shared name,
    email and role fields, the password rules of a new user, the optional
    passwords of an edit, the "Passwords don't match" refinement, which
    schema is used, and the form's starting values. */
module UserForm {
  import opened Wrappers
  import opened Zod

  const NameTooShort := "Name must be at least 2 characters"
  const NameTooLong := "Name must be less than 50 characters"
  const NameRequired := "Name is required"
  const EmailRequired := "Email is required"
  const EmailInvalid := "Please enter a valid email address"
  const PasswordRequired := "Password is required"
  const PasswordTooShort := "Password must be at least 6 characters"
  const ConfirmRequired := "Please confirm your password"
  const Mismatch := "Passwords don't match"

  const NameField := Field("name", Text([MinLen(2, NameTooShort), MaxLen(50, NameTooLong), MinLen(1, NameRequired)]), false, None)
  const EmailField := Field("email", Text([MinLen(1, EmailRequired), EmailFormat(EmailInvalid)]), false, None)
  /** `z.enum(['admin', 'user']).optional().default('user')`. */
  const RoleField := Field("role", OneOf(["admin", "user"]), true, Some("user"))

  const BaseSchema: Schema := [NameField, EmailField, RoleField]

  const NewUserSchema: Schema := BaseSchema + [
    Field("password", Text([MinLen(1, PasswordRequired), MinLen(6, PasswordTooShort)]), false, None),
    Field("repeatPassword", Text([MinLen(1, ConfirmRequired)]), false, None)]

  const EditUserSchema: Schema := BaseSchema + [
    Field("password", Text([]), true, None),
    Field("repeatPassword", Text([]), true, None)]

  const MismatchIssue := Issue("repeatPassword", Mismatch)

  /** JavaScript truthiness of a possibly undefined string. */
  predicate Truthy(v: Option<string>) {
    v.Some? && v.value != ""
  }

  /** `newUserSchema`: the fields, then `password === repeatPassword`. */
  function ParseNewUser(values: Values, isEmail: string -> bool): (r: Outcome)
    ensures var o := ParseObject(NewUserSchema, values, isEmail);
      && r.aborted == o.aborted
      && (r.issues == o.issues || r.issues == o.issues + [MismatchIssue])
      && (r.issues == o.issues + [MismatchIssue] <==>
            !o.aborted && Lookup(values, "password") != Lookup(values, "repeatPassword"))
  {
    Refine(ParseObject(NewUserSchema, values, isEmail),
           Lookup(values, "password") == Lookup(values, "repeatPassword"), MismatchIssue)
  }

  /** `editUserSchema`: the fields, then a mismatch only when both passwords
      are non-empty. */
  function ParseEditUser(values: Values, isEmail: string -> bool): (r: Outcome)
    ensures var o := ParseObject(EditUserSchema, values, isEmail);
      var pw := Lookup(values, "password");
      var rp := Lookup(values, "repeatPassword");
      && r.aborted == o.aborted
      && (r.issues == o.issues || r.issues == o.issues + [MismatchIssue])
      && (r.issues == o.issues + [MismatchIssue] <==> !o.aborted && Truthy(pw) && Truthy(rp) && pw != rp)
  {
    var pw := Lookup(values, "password");
    var rp := Lookup(values, "repeatPassword");
    Refine(ParseObject(EditUserSchema, values, isEmail), !Truthy(pw) || !Truthy(rp) || pw == rp, MismatchIssue)
  }

  /** The resolver: the edit schema exactly when editing. */
  function Resolve(isEditing: bool, values: Values, isEmail: string -> bool): (o: Outcome)
    ensures isEditing ==> o == ParseEditUser(values, isEmail)
    ensures !isEditing ==> o == ParseNewUser(values, isEmail)
  {
    if isEditing then ParseEditUser(values, isEmail) else ParseNewUser(values, isEmail)
  }

  /** The message shown under a field. */
  function ErrorFor(isEditing: bool, values: Values, isEmail: string -> bool, path: string): (m: Option<string>)
    ensures var issues := Resolve(isEditing, values, isEmail).issues;
      && (m.None? <==> forall i :: 0 <= i < |issues| ==> issues[i].path != path)
      && (m.Some? ==> Issue(path, m.value) in issues)
  {
    var issues := Resolve(isEditing, values, isEmail).issues;
    FirstMessageSpec(issues, path);
    FirstMessage(issues, path)
  }

  predicate NameOk(values: Values) {
    "name" in values && 2 <= |values["name"]| <= 50
  }

  predicate EmailOk(values: Values, isEmail: string -> bool) {
    "email" in values && values["email"] != "" && isEmail(values["email"])
  }

  predicate RoleOk(values: Values) {
    "role" !in values || values["role"] == "admin" || values["role"] == "user"
  }

  /** What a new user must satisfy, written out. */
  predicate NewUserValid(values: Values, isEmail: string -> bool) {
    && NameOk(values) && EmailOk(values, isEmail) && RoleOk(values)
    && "password" in values && |values["password"]| >= 6
    && "repeatPassword" in values && values["repeatPassword"] != ""
    && values["password"] == values["repeatPassword"]
  }

  /** What an edit must satisfy, written out. */
  predicate EditUserValid(values: Values, isEmail: string -> bool) {
    && NameOk(values) && EmailOk(values, isEmail) && RoleOk(values)
    && var pw := Lookup(values, "password");
       var rp := Lookup(values, "repeatPassword");
       !Truthy(pw) || !Truthy(rp) || pw == rp
  }

  lemma NewUserFieldsAccept(values: Values, isEmail: string -> bool)
    ensures AcceptsAll(NewUserSchema, values, isEmail) <==>
      && NameOk(values) && EmailOk(values, isEmail) && RoleOk(values)
      && "password" in values && |values["password"]| >= 6
      && "repeatPassword" in values && values["repeatPassword"] != ""
  {
    var s := NewUserSchema;
    FiveFields(s, values, isEmail);
    NameAccepts(Lookup(values, "name"), isEmail);
    EmailAccepts(Lookup(values, "email"), isEmail);
    assert Accepts(s[0], Lookup(values, "name"), isEmail) <==> NameOk(values);
    assert Accepts(s[1], Lookup(values, "email"), isEmail) <==> EmailOk(values, isEmail);
    assert Accepts(s[2], Lookup(values, "role"), isEmail) <==> RoleOk(values);
    NewPasswordsAccept(Lookup(values, "password"), Lookup(values, "repeatPassword"), isEmail);
    assert Accepts(s[3], Lookup(values, "password"), isEmail) <==> "password" in values && |values["password"]| >= 6;
    assert Accepts(s[4], Lookup(values, "repeatPassword"), isEmail) <==> "repeatPassword" in values && values["repeatPassword"] != "";
  }

  lemma EditUserFieldsAccept(values: Values, isEmail: string -> bool)
    ensures AcceptsAll(EditUserSchema, values, isEmail) <==>
      NameOk(values) && EmailOk(values, isEmail) && RoleOk(values)
  {
    var s := EditUserSchema;
    FiveFields(s, values, isEmail);
    NameAccepts(Lookup(values, "name"), isEmail);
    EmailAccepts(Lookup(values, "email"), isEmail);
    assert Accepts(s[0], Lookup(values, "name"), isEmail) <==> NameOk(values);
    assert Accepts(s[1], Lookup(values, "email"), isEmail) <==> EmailOk(values, isEmail);
    assert Accepts(s[2], Lookup(values, "role"), isEmail) <==> RoleOk(values);
    assert Accepts(s[3], Lookup(values, "password"), isEmail);
    assert Accepts(s[4], Lookup(values, "repeatPassword"), isEmail);
  }

  lemma NameAccepts(v: Option<string>, isEmail: string -> bool)
    ensures Accepts(NameField, v, isEmail) <==> v.Some? && 2 <= |v.value| <= 50
  {
    if v.Some? {
      var c := NameField.kind.checks;
      assert (forall i :: 0 <= i < |c| ==> Passes(c[i], v.value, isEmail)) <==>
        Passes(c[0], v.value, isEmail) && Passes(c[1], v.value, isEmail) && Passes(c[2], v.value, isEmail);
    }
  }

  lemma EmailAccepts(v: Option<string>, isEmail: string -> bool)
    ensures Accepts(EmailField, v, isEmail) <==> v.Some? && v.value != "" && isEmail(v.value)
  {
    if v.Some? {
      var c := EmailField.kind.checks;
      assert (forall i :: 0 <= i < |c| ==> Passes(c[i], v.value, isEmail)) <==>
        Passes(c[0], v.value, isEmail) && Passes(c[1], v.value, isEmail);
    }
  }

  lemma NewPasswordsAccept(v: Option<string>, w: Option<string>, isEmail: string -> bool)
    ensures Accepts(NewUserSchema[3], v, isEmail) <==> v.Some? && |v.value| >= 6
    ensures Accepts(NewUserSchema[4], w, isEmail) <==> w.Some? && w.value != ""
  {
    if v.Some? {
      var c := NewUserSchema[3].kind.checks;
      assert (forall i :: 0 <= i < |c| ==> Passes(c[i], v.value, isEmail)) <==>
        Passes(c[0], v.value, isEmail) && Passes(c[1], v.value, isEmail);
    }
    if w.Some? {
      var c := NewUserSchema[4].kind.checks;
      assert (forall i :: 0 <= i < |c| ==> Passes(c[i], w.value, isEmail)) <==> Passes(c[0], w.value, isEmail);
    }
  }

  /** A five-field schema accepts exactly when each of its fields does. */
  lemma FiveFields(s: Schema, values: Values, isEmail: string -> bool)
    requires |s| == 5
    ensures AcceptsAll(s, values, isEmail) <==>
      && Accepts(s[0], Lookup(values, s[0].path), isEmail)
      && Accepts(s[1], Lookup(values, s[1].path), isEmail)
      && Accepts(s[2], Lookup(values, s[2].path), isEmail)
      && Accepts(s[3], Lookup(values, s[3].path), isEmail)
      && Accepts(s[4], Lookup(values, s[4].path), isEmail)
  {
  }

  /** A new user passes exactly when every written-out rule holds. */
  lemma NewUserAcceptedIff(values: Values, isEmail: string -> bool)
    ensures ParseNewUser(values, isEmail).issues == [] <==> NewUserValid(values, isEmail)
  {
    ParseObjectSound(NewUserSchema, values, isEmail);
    NewUserFieldsAccept(values, isEmail);
  }

  /** An edit passes exactly when every written-out rule holds: the passwords
      may be missing or empty, and differ only if one of them is. */
  lemma EditUserAcceptedIff(values: Values, isEmail: string -> bool)
    ensures ParseEditUser(values, isEmail).issues == [] <==> EditUserValid(values, isEmail)
  {
    ParseObjectSound(EditUserSchema, values, isEmail);
    EditUserFieldsAccept(values, isEmail);
  }

  /** Nothing in either schema aborts when every field is present and the
      role is one of the two options, so the refinement always runs then. */
  lemma CompleteFormNotAborted(isEditing: bool, values: Values, isEmail: string -> bool)
    requires "name" in values && "email" in values && RoleOk(values)
    requires "password" in values && "repeatPassword" in values
    ensures !ParseObject(if isEditing then EditUserSchema else NewUserSchema, values, isEmail).aborted
  {
    var s := if isEditing then EditUserSchema else NewUserSchema;
    ParseObjectSound(s, values, isEmail);
    DistinctPaths(s);
    forall i | 0 <= i < 5 ensures !ParseField(s[i], Lookup(values, s[i].path), isEmail).aborted {
      PresentNotAborted(s[i], values, isEmail);
    }
  }

  /** A field of either schema does not abort when its key is present, or,
      for the role, when the value is one of the options or missing. */
  lemma PresentNotAborted(f: Field, values: Values, isEmail: string -> bool)
    requires f in NewUserSchema || f in EditUserSchema
    requires "name" in values && "email" in values && RoleOk(values)
    requires "password" in values && "repeatPassword" in values
    ensures !ParseField(f, Lookup(values, f.path), isEmail).aborted
  {
    ParseFieldSound(f, Lookup(values, f.path), isEmail);
  }

  /** The paths of both schemas are distinct. */
  lemma DistinctPaths(s: Schema)
    requires s == NewUserSchema || s == EditUserSchema
    ensures |s| == 5
    ensures forall i, j :: 0 <= i < |s| && 0 <= j < |s| && i != j ==> s[i].path != s[j].path
  {
  }

  /** The name and email fields show the message of their own first issue:
      the other fields and the password refinement never interfere. */
  lemma BaseFieldMessage(isEditing: bool, values: Values, isEmail: string -> bool, k: nat)
    requires k < 2
    ensures var f := BaseSchema[k];
      ErrorFor(isEditing, values, isEmail, f.path) == FirstMessage(ParseField(f, Lookup(values, f.path), isEmail).issues, f.path)
  {
    var s := if isEditing then EditUserSchema else NewUserSchema;
    DistinctPaths(s);
    assert s[k] == BaseSchema[k];
    ObjectFieldMessage(s, values, isEmail, k);
    var pw := Lookup(values, "password");
    var rp := Lookup(values, "repeatPassword");
    if isEditing {
      RefineKeepsMessage(ParseObject(s, values, isEmail), !Truthy(pw) || !Truthy(rp) || pw == rp, MismatchIssue, s[k].path);
    } else {
      RefineKeepsMessage(ParseObject(s, values, isEmail), pw == rp, MismatchIssue, s[k].path);
    }
  }

  /** The name field shows the length messages only: an empty name fails
      the minimum-length check first, so "Name is required" is never shown. */
  lemma NameMessage(isEditing: bool, values: Values, isEmail: string -> bool)
    ensures ErrorFor(isEditing, values, isEmail, "name") ==
      if "name" !in values then Some("Required")
      else if |values["name"]| < 2 then Some(NameTooShort)
      else if |values["name"]| > 50 then Some(NameTooLong)
      else None
    ensures ErrorFor(isEditing, values, isEmail, "name") != Some(NameRequired)
  {
    BaseFieldMessage(isEditing, values, isEmail, 0);
    TextFieldMessage(NameField, Lookup(values, "name"), isEmail);
    if "name" in values {
      var n := values["name"];
      var checks := NameField.kind.checks;
      if |n| < 2 {
        FirstFailure(checks, n, isEmail, 0);
      } else if |n| > 50 {
        FirstFailure(checks, n, isEmail, 1);
      }
    }
  }

  /** The email field shows "Email is required" for an empty email, otherwise
      the format message when the format check fails. */
  lemma EmailMessage(isEditing: bool, values: Values, isEmail: string -> bool)
    requires "email" in values
    ensures ErrorFor(isEditing, values, isEmail, "email") ==
      if values["email"] == "" then Some(EmailRequired)
      else if !isEmail(values["email"]) then Some(EmailInvalid)
      else None
  {
    BaseFieldMessage(isEditing, values, isEmail, 1);
    TextFieldMessage(EmailField, Lookup(values, "email"), isEmail);
    var e := values["email"];
    if e == "" {
      FirstFailure(EmailField.kind.checks, e, isEmail, 0);
    } else if !isEmail(e) {
      FirstFailure(EmailField.kind.checks, e, isEmail, 1);
    }
  }


  /** For a new user with every field filled in and a valid role, the
      confirmation field shows "Please confirm your password" when empty and
      otherwise "Passwords don't match" exactly when the two differ. */
  lemma NewUserMismatchIff(values: Values, isEmail: string -> bool)
    requires "name" in values && "email" in values && RoleOk(values)
    requires "password" in values && "repeatPassword" in values
    ensures values["repeatPassword"] == "" ==> ErrorFor(false, values, isEmail, "repeatPassword") == Some(ConfirmRequired)
    ensures values["repeatPassword"] != "" ==>
      (ErrorFor(false, values, isEmail, "repeatPassword") == Some(Mismatch) <==> values["password"] != values["repeatPassword"])
    ensures values["repeatPassword"] != "" && values["password"] == values["repeatPassword"] ==>
      ErrorFor(false, values, isEmail, "repeatPassword").None?
  {
    var s := NewUserSchema;
    DistinctPaths(s);
    CompleteFormNotAborted(false, values, isEmail);
    var o := ParseObject(s, values, isEmail);
    var r := ParseNewUser(values, isEmail);
    var extra := r.issues[|o.issues|..];
    assert r.issues == o.issues + extra;
    FieldMessage(s, values, isEmail, 4, extra);
    var own := ParseField(s[4], Lookup(values, "repeatPassword"), isEmail).issues;
    OwnIssuesFirst(own, extra, "repeatPassword");
    if values["repeatPassword"] == "" {
      FirstFailure(s[4].kind.checks, "", isEmail, 0);
    }
  }

  /** When editing, with every field filled in and a valid role, a mismatch
      is shown exactly when both passwords are non-empty and differ. */
  lemma EditMismatchIff(values: Values, isEmail: string -> bool)
    requires "name" in values && "email" in values && RoleOk(values)
    requires "password" in values && "repeatPassword" in values
    ensures ErrorFor(true, values, isEmail, "repeatPassword") == Some(Mismatch) <==>
      values["password"] != "" && values["repeatPassword"] != "" && values["password"] != values["repeatPassword"]
    ensures ErrorFor(true, values, isEmail, "repeatPassword") != Some(Mismatch) ==>
      ErrorFor(true, values, isEmail, "repeatPassword").None?
  {
    var s := EditUserSchema;
    DistinctPaths(s);
    CompleteFormNotAborted(true, values, isEmail);
    var o := ParseObject(s, values, isEmail);
    var r := ParseEditUser(values, isEmail);
    var extra := r.issues[|o.issues|..];
    assert r.issues == o.issues + extra;
    FieldMessage(s, values, isEmail, 4, extra);
    var own := ParseField(s[4], Lookup(values, "repeatPassword"), isEmail).issues;
    assert own == [];
    OwnIssuesFirst(own, extra, "repeatPassword");
  }

  /** `defaultValues`: each key the caller gives, even as `undefined`,
      replaces the built-in start value. */
  datatype Defaults = Defaults(
    name: Slot<string>, email: Slot<string>, password: Slot<string>,
    repeatPassword: Slot<string>, role: Slot<string>)

  /** The form's starting values: empty strings and role "user", overridden
      key by key. A key set to `undefined` is left out of the map. */
  function StartValues(d: Defaults): (v: Values)
    ensures Lookup(v, "name") == d.name.Over(Some(""))
    ensures Lookup(v, "email") == d.email.Over(Some(""))
    ensures Lookup(v, "password") == d.password.Over(Some(""))
    ensures Lookup(v, "repeatPassword") == d.repeatPassword.Over(Some(""))
    ensures Lookup(v, "role") == d.role.Over(Some("user"))
    ensures forall k :: k in v ==> k in {"name", "email", "password", "repeatPassword", "role"}
  {
    var m: Values := map[];
    var m := Set(m, "name", d.name.Over(Some("")));
    var m := Set(m, "email", d.email.Over(Some("")));
    var m := Set(m, "password", d.password.Over(Some("")));
    var m := Set(m, "repeatPassword", d.repeatPassword.Over(Some("")));
    Set(m, "role", d.role.Over(Some("user")))
  }

  function Set(m: Values, k: string, v: Option<string>): (r: Values)
    ensures Lookup(r, k) == v
    ensures forall k' :: k' != k ==> Lookup(r, k') == Lookup(m, k')
    ensures forall k' :: k' in r ==> k' in m || k' == k
  {
    if v.Some? then m[k := v.value] else m - {k}
  }

  /** With no `defaultValues`, a blank new-user form shows the short-name
      message under the name and "Email is required" under the email. */
  lemma BlankNewUserForm(isEmail: string -> bool)
    ensures ErrorFor(false, StartValues(Defaults(Absent, Absent, Absent, Absent, Absent)), isEmail, "name") == Some(NameTooShort)
    ensures ErrorFor(false, StartValues(Defaults(Absent, Absent, Absent, Absent, Absent)), isEmail, "email") == Some(EmailRequired)
    ensures StartValues(Defaults(Absent, Absent, Absent, Absent, Absent))["role"] == "user"
  {
    var v := StartValues(Defaults(Absent, Absent, Absent, Absent, Absent));
    assert Lookup(v, "name") == Some("") && Lookup(v, "email") == Some("") && Lookup(v, "role") == Some("user");
    NameMessage(false, v, isEmail);
    EmailMessage(false, v, isEmail);
  }
}
