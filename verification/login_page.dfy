/** The sign-in page: its email pattern `^[^\s@]+@[^\s@]+\.[^\s@]+$`, the
    password length rule, the form state the two validators keep, the submit
    button's enabled state and the three ways a sign-in attempt ends. */
module LoginPage {
  import opened Wrappers
  import opened Text

  /** The class `[^\s@]`. */
  predicate Plain(c: char) {
    !IsWhitespace(c) && c != '@'
  }

  predicate AllPlain(s: string) {
    forall k :: 0 <= k < |s| ==> Plain(s[k])
  }

  /** The pattern matches `s` with its `@` at `i` and its literal `.` at `j`:
      three non-empty runs of the class around them. */
  predicate SplitsAt(s: string, i: int, j: int) {
    && 0 < i && i + 1 < j && j + 1 < |s|
    && s[i] == '@' && s[j] == '.'
    && AllPlain(s[..i]) && AllPlain(s[i + 1..j]) && AllPlain(s[j + 1..])
  }

  /** What the regular expression accepts. */
  predicate PatternMatches(s: string)
    ensures PatternMatches(s) ==> |s| >= 5 && '@' in s && '.' in s
  {
    exists i, j | 0 <= i < |s| && 0 <= j < |s| :: SplitsAt(s, i, j)
  }

  /** The domain has a '.' that is neither its first nor its last character. */
  predicate HasInnerDot(d: string) {
    exists j :: 0 < j < |d| - 1 && d[j] == '.'
  }

  /** `@` at `i` is the only one, with something before it. */
  predicate OnlyAtAt(s: string, i: int) {
    && 0 < i < |s| && s[i] == '@'
    && forall k :: 0 <= k < |s| && k != i ==> s[k] != '@'
  }

  /** The same language described by its shape: no whitespace, exactly one
      '@' with a non-empty part before it, and after it a domain with an
      inner '.'. */
  predicate EmailShape(s: string) {
    && (forall k :: 0 <= k < |s| ==> !IsWhitespace(s[k]))
    && exists i | 0 <= i < |s| :: OnlyAtAt(s, i) && HasInnerDot(s[i + 1..])
  }

  lemma PatternIffShape(s: string)
    ensures PatternMatches(s) <==> EmailShape(s)
  {
    if PatternMatches(s) {
      var i, j :| 0 <= i < |s| && 0 <= j < |s| && SplitsAt(s, i, j);
      forall k | 0 <= k < |s| ensures !IsWhitespace(s[k]) && (k != i ==> s[k] != '@') {
        if k < i {
          assert s[k] == s[..i][k];
        } else if i < k < j {
          assert s[k] == s[i + 1..j][k - i - 1];
        } else if j < k {
          assert s[k] == s[j + 1..][k - j - 1];
        }
      }
      assert OnlyAtAt(s, i);
      assert s[i + 1..][j - i - 1] == '.';
      assert HasInnerDot(s[i + 1..]);
    }
    if EmailShape(s) {
      var i :| 0 <= i < |s| && OnlyAtAt(s, i) && HasInnerDot(s[i + 1..]);
      var d := s[i + 1..];
      var jd :| 0 < jd < |d| - 1 && d[jd] == '.';
      var j := i + 1 + jd;
      assert s[j] == '.';
      assert AllPlain(s[..i]) by {
        forall k | 0 <= k < i ensures Plain(s[..i][k]) {
          assert s[..i][k] == s[k];
        }
      }
      assert AllPlain(s[i + 1..j]) by {
        forall k | i + 1 <= k < j ensures Plain(s[k]) {
        }
      }
      assert AllPlain(s[j + 1..]) by {
        forall k | j + 1 <= k < |s| ensures Plain(s[k]) {
        }
      }
      assert SplitsAt(s, i, j);
    }
  }

  /** The pattern's test, in one left-to-right pass: remember whether any
      whitespace was seen, where the first '@' is, whether a second one
      follows, and whether a '.' sits strictly inside the domain. */
  method TestEmail(s: string) returns (ok: bool)
    ensures ok <==> PatternMatches(s)
  {
    var ws := false;
    var first := -1;
    var many := false;
    var dot := false;
    var k := 0;
    while k < |s|
      invariant 0 <= k <= |s|
      invariant ws <==> exists m :: 0 <= m < k && IsWhitespace(s[m])
      invariant -1 <= first < k
      invariant first == -1 ==> forall m :: 0 <= m < k ==> s[m] != '@'
      invariant first >= 0 ==> s[first] == '@' && forall m :: 0 <= m < first ==> s[m] != '@'
      invariant many <==> first >= 0 && exists m :: first < m < k && s[m] == '@'
      invariant dot <==> first >= 0 && exists m :: first + 1 < m < k && m < |s| - 1 && s[m] == '.'
    {
      var c := s[k];
      if IsWhitespace(c) {
        ws := true;
      }
      if c == '@' {
        if first == -1 {
          first := k;
        } else {
          many := true;
        }
      }
      if c == '.' && first >= 0 && first + 1 < k && k < |s| - 1 {
        dot := true;
      }
      k := k + 1;
    }
    ok := !ws && first > 0 && !many && dot;
    ShapeFromScan(s, ws, first, many, dot);
    PatternIffShape(s);
  }

  /** What the final scan state says about the shape. */
  lemma ShapeFromScan(s: string, ws: bool, first: int, many: bool, dot: bool)
    requires -1 <= first < |s|
    requires ws <==> exists m :: 0 <= m < |s| && IsWhitespace(s[m])
    requires first == -1 ==> forall m :: 0 <= m < |s| ==> s[m] != '@'
    requires first >= 0 ==> s[first] == '@' && forall m :: 0 <= m < first ==> s[m] != '@'
    requires many <==> first >= 0 && exists m :: first < m < |s| && s[m] == '@'
    requires dot <==> first >= 0 && exists m :: first + 1 < m < |s| - 1 && s[m] == '.'
    ensures (!ws && first > 0 && !many && dot) <==> EmailShape(s)
  {
    if !ws && first > 0 && !many && dot {
      var m :| first + 1 < m < |s| - 1 && s[m] == '.';
      assert s[first + 1..][m - first - 1] == '.';
      assert OnlyAtAt(s, first);
    }
    if EmailShape(s) {
      var i :| 0 <= i < |s| && OnlyAtAt(s, i) && HasInnerDot(s[i + 1..]);
      assert first == i;
      var d := s[i + 1..];
      var jd :| 0 < jd < |d| - 1 && d[jd] == '.';
      assert s[i + 1 + jd] == '.';
    }
  }

  /** `validatePassword`: at least six characters. */
  predicate PasswordOk(p: string) {
    |p| >= 6
  }

  datatype FormState = FormState(email: string, password: string, isValidEmail: bool, isValidPassword: bool)

  const InitialForm := FormState("", "", false, false)

  /** `validateEmail`: store the typed email and its verdict, nothing else. */
  function ValidateEmail(st: FormState, email: string): (r: FormState)
    ensures r.email == email && (r.isValidEmail <==> PatternMatches(email))
    ensures r.password == st.password && r.isValidPassword == st.isValidPassword
  {
    st.(email := email, isValidEmail := PatternMatches(email))
  }

  /** `validatePassword`: store the typed password and its verdict, nothing else. */
  function ValidatePassword(st: FormState, password: string): (r: FormState)
    ensures r.password == password && (r.isValidPassword <==> |password| >= 6)
    ensures r.email == st.email && r.isValidEmail == st.isValidEmail
  {
    st.(password := password, isValidPassword := PasswordOk(password))
  }

  /** Each flag is the verdict on the value stored beside it. */
  predicate FlagsAgree(st: FormState) {
    (st.isValidEmail <==> PatternMatches(st.email)) && (st.isValidPassword <==> PasswordOk(st.password))
  }

  /** `isFormValid`: while the flags agree with the values, both values pass. */
  predicate IsFormValid(st: FormState)
    ensures FlagsAgree(st) ==> (IsFormValid(st) <==> PatternMatches(st.email) && PasswordOk(st.password))
  {
    st.isValidEmail && st.isValidPassword
  }

  /** The submit button's `disabled`: always while loading, otherwise exactly
      when a value fails its check. */
  predicate SubmitDisabled(loading: bool, st: FormState)
    ensures loading ==> SubmitDisabled(loading, st)
    ensures FlagsAgree(st) ==>
      (SubmitDisabled(loading, st) <==> loading || !PatternMatches(st.email) || !PasswordOk(st.password))
  {
    loading || !IsFormValid(st)
  }

  /** Typing into either field. */
  datatype Input = EmailTyped(email: string) | PasswordTyped(password: string)

  function Type(st: FormState, inputs: seq<Input>): FormState
    decreases |inputs|
  {
    if inputs == [] then st
    else
      var st' := match inputs[0]
        case EmailTyped(e) => ValidateEmail(st, e)
        case PasswordTyped(p) => ValidatePassword(st, p);
      Type(st', inputs[1..])
  }

  /** Whatever was typed, the flags describe the current values. */
  lemma {:induction false} TypingKeepsFlagsAgree(st: FormState, inputs: seq<Input>)
    requires FlagsAgree(st)
    ensures FlagsAgree(Type(st, inputs))
    decreases |inputs|
  {
    if inputs != [] {
      var st' := match inputs[0]
        case EmailTyped(e) => ValidateEmail(st, e)
        case PasswordTyped(p) => ValidatePassword(st, p);
      TypingKeepsFlagsAgree(st', inputs[1..]);
    }
  }

  /** From the empty form, the submit button is enabled exactly when nothing
      is loading, the email has the expected shape and the password has at
      least six characters. */
  lemma SubmitEnabledIff(inputs: seq<Input>, loading: bool)
    ensures var st := Type(InitialForm, inputs);
      !SubmitDisabled(loading, st) <==> !loading && EmailShape(st.email) && |st.password| >= 6
  {
    assert !PatternMatches("");
    TypingKeepsFlagsAgree(InitialForm, inputs);
    PatternIffShape(Type(InitialForm, inputs).email);
  }

  /** How the sign-in call ends. */
  datatype LoginOutcome = Returned(success: bool) | Threw

  /** The page after a submit: the error line, the loading flag, and where it
      navigated to, if anywhere. */
  datatype Page = Page(error: string, loading: bool, navigatedTo: Option<string>)

  function HandleLogin(o: LoginOutcome): (p: Page)
    ensures !p.loading
    ensures p.navigatedTo.Some? <==> o == Returned(true)
    ensures p.navigatedTo.Some? ==> p.navigatedTo.value == "/" && p.error == ""
    ensures o == Returned(false) ==> p.error == "Invalid credentials. Please try again."
    ensures o == Threw ==> p.error == "An error occurred. Please try again."
  {
    match o
    case Returned(true) => Page("", false, Some("/"))
    case Returned(false) => Page("Invalid credentials. Please try again.", false, None)
    case Threw => Page("An error occurred. Please try again.", false, None)
  }

  /** The page shows an error exactly when it did not navigate away. */
  lemma ErrorIffStayed(o: LoginOutcome)
    ensures HandleLogin(o).error != "" <==> HandleLogin(o).navigatedTo.None?
  {
  }
}
