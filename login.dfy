/**
 * The sign-in / sign-up page: its form state, the ordered validation chain
 * run on submit, the dispatch it leads to, error clearing on every change,
 * and where the page navigates once the session is authenticated.
 */
module Login {
  import opened Wrappers
  import opened AuthSlice
  import opened LoginText

  /** `formData`. */
  datatype Form = Form(name: string, email: string, password: string, confirmPassword: string, rememberMe: bool)

  const EmptyForm: Form := Form("", "", "", "", false)

  datatype TextField = NameField | EmailField | PasswordField | ConfirmPasswordField

  /**
   * The target of a change event: one of the four text inputs with its
   * `value`, or the remember-me checkbox with its `checked`.
   */
  datatype Target = TextInput(field: TextField, value: string) | Checkbox(checked: bool)

  function FieldValue(f: Form, field: TextField): string {
    match field
    case NameField => f.name
    case EmailField => f.email
    case PasswordField => f.password
    case ConfirmPasswordField => f.confirmPassword
  }

  /**
   * The record update of `handleChange`: a checkbox stores `checked`, a text
   * input stores `value` under its own name, and no other field changes.
   */
  function ApplyChange(f: Form, t: Target): (g: Form)
    ensures t.Checkbox? ==>
      g.rememberMe == t.checked && forall fld :: FieldValue(g, fld) == FieldValue(f, fld)
    ensures t.TextInput? ==>
      && FieldValue(g, t.field) == t.value && g.rememberMe == f.rememberMe
      && forall fld :: fld != t.field ==> FieldValue(g, fld) == FieldValue(f, fld)
  {
    match t
    case Checkbox(c) => f.(rememberMe := c)
    case TextInput(fld, v) =>
      match fld
      case NameField => f.(name := v)
      case EmailField => f.(email := v)
      case PasswordField => f.(password := v)
      case ConfirmPasswordField => f.(confirmPassword := v)
  }

  /** One link of the validation chain: whether it fails, and what it reports. */
  datatype Check = Check(fails: bool, message: string)

  /** The sign-up chain, in the order it runs. */
  function SignUpChecks(f: Form): seq<Check> {
    [ Check(Trim(f.name) == "", "Please enter your full name"),
      Check(Utf16Length(Trim(f.name)) < 2, "Name must be at least 2 characters"),
      Check(f.email == "", "Please enter your email"),
      Check(!ValidEmail(f.email), "Please enter a valid email address"),
      Check(f.password == "", "Please enter a password"),
      Check(Utf16Length(f.password) < 6, "Password must be at least 6 characters"),
      Check(f.confirmPassword == "", "Please confirm your password"),
      Check(f.password != f.confirmPassword, "Passwords do not match") ]
  }

  /** The sign-in chain, in the order it runs. */
  function SignInChecks(f: Form): seq<Check> {
    [ Check(f.email == "", "Please enter your email"),
      Check(!ValidEmail(f.email), "Please enter a valid email address"),
      Check(f.password == "", "Please enter your password") ]
  }

  function Checks(isSignUp: bool, f: Form): seq<Check> {
    if isSignUp then SignUpChecks(f) else SignInChecks(f)
  }

  /** The position of the first failing check, or `|cs|` when every check passes. */
  function FirstFailing(cs: seq<Check>): (k: nat)
    ensures k <= |cs|
    ensures k < |cs| ==> cs[k].fails
    ensures forall j :: 0 <= j < k ==> !cs[j].fails
  {
    if cs == [] then 0
    else if cs[0].fails then 0
    else 1 + FirstFailing(cs[1..])
  }

  /** What a successful validation dispatches. */
  datatype Request =
    | RegisterRequest(name: string, email: string, password: string)
    | LoginRequest(email: string, password: string)

  /** `registerUser({ name, email, password })` in sign-up mode, else `loginUser({ email, password })`. */
  function RequestFor(isSignUp: bool, f: Form): Request {
    if isSignUp then RegisterRequest(f.name, f.email, f.password) else LoginRequest(f.email, f.password)
  }

  /**
   * The early-return chain of `handleSubmit`: reports the message of the
   * first check that fails, or nothing when all pass.
   */
  method Validate(isSignUp: bool, f: Form) returns (error: Option<string>)
    ensures var cs := Checks(isSignUp, f);
      && (FirstFailing(cs) < |cs| ==> error == Some(cs[FirstFailing(cs)].message))
      && (FirstFailing(cs) == |cs| ==> error.None?)
  {
    var name, email, password, confirmPassword := f.name, f.email, f.password, f.confirmPassword;
    ghost var cs := Checks(isSignUp, f);
    if isSignUp {
      if Trim(name) == "" {
        assert cs[0].fails;
        return Some("Please enter your full name");
      }
      if Utf16Length(Trim(name)) < 2 {
        assert cs[1].fails;
        return Some("Name must be at least 2 characters");
      }
      if email == "" {
        assert cs[2].fails;
        return Some("Please enter your email");
      }
      if !ValidEmail(email) {
        assert cs[3].fails;
        return Some("Please enter a valid email address");
      }
      if password == "" {
        assert cs[4].fails;
        return Some("Please enter a password");
      }
      if Utf16Length(password) < 6 {
        assert cs[5].fails;
        return Some("Password must be at least 6 characters");
      }
      if confirmPassword == "" {
        assert cs[6].fails;
        return Some("Please confirm your password");
      }
      if password != confirmPassword {
        assert cs[7].fails;
        return Some("Passwords do not match");
      }
    } else {
      if email == "" {
        assert cs[0].fails;
        return Some("Please enter your email");
      }
      if !ValidEmail(email) {
        assert cs[1].fails;
        return Some("Please enter a valid email address");
      }
      if password == "" {
        assert cs[2].fails;
        return Some("Please enter your password");
      }
    }
    return None;
  }

  /** A name that is empty or only whitespace is reported first. */
  lemma BlankNameFailsFirst(f: Form)
    requires Blank(f.name)
    ensures FirstFailing(SignUpChecks(f)) == 0
  {
    TrimEmptyIffBlank(f.name);
  }

  /**
   * A name that is not blank but trims to a single UTF-16 code unit is
   * reported by the length check (a single character outside the Basic
   * Multilingual Plane counts as two and passes it).
   */
  lemma ShortNameFailsSecond(f: Form)
    requires !Blank(f.name) && Utf16Length(Trim(f.name)) == 1
    ensures FirstFailing(SignUpChecks(f)) == 1
  {
    TrimEmptyIffBlank(f.name);
  }

  /**
   * A name of one character outside the Basic Multilingual Plane is not
   * blank and passes the length check: `.length` counts it as two.
   */
  lemma SingleAstralNamePasses(f: Form)
    requires |f.name| == 1 && f.name[0] as int >= 0x10000
    ensures !SignUpChecks(f)[0].fails && !SignUpChecks(f)[1].fails
  {
    assert !IsWhitespace(f.name[0]);
    assert TrimStart(f.name) == f.name;
    assert Trim(f.name) == f.name;
    assert f.name == [f.name[0]];
    Utf16LengthOfChar(f.name[0]);
  }

  /**
   * Sign-in passes exactly when the e-mail matches the pattern and the
   * password is non-empty: there is no password length rule.
   */
  lemma SignInPassesIff(f: Form)
    ensures FirstFailing(SignInChecks(f)) == 3 <==> MatchesEmailPattern(f.email) && f.password != ""
  {
    ValidEmailMatchesPattern(f.email);
    var cs := SignInChecks(f);
    if FirstFailing(cs) == 3 {
      assert !cs[1].fails && !cs[2].fails;
    }
    if MatchesEmailPattern(f.email) && f.password != "" {
      assert f.email != "";
      assert forall k :: 0 <= k < |cs| ==> !cs[k].fails;
    }
  }

  /**
   * Sign-up passes exactly when the trimmed name has at least two code
   * units, the e-mail matches the pattern, the password has at least six
   * code units, and the confirmation equals it.
   */
  lemma SignUpPassesIff(f: Form)
    ensures FirstFailing(SignUpChecks(f)) == 8 <==>
      && Utf16Length(Trim(f.name)) >= 2 && MatchesEmailPattern(f.email)
      && Utf16Length(f.password) >= 6 && f.confirmPassword == f.password
  {
    ValidEmailMatchesPattern(f.email);
    if FirstFailing(SignUpChecks(f)) == 8 {
      var cs := SignUpChecks(f);
      assert !cs[1].fails && !cs[3].fails && !cs[5].fails && !cs[7].fails;
    } else if && Utf16Length(Trim(f.name)) >= 2 && MatchesEmailPattern(f.email)
              && Utf16Length(f.password) >= 6 && f.confirmPassword == f.password {
      SignUpRulesPass(f);
    }
  }

  /** When every sign-up rule holds, no check in the chain fails. */
  lemma SignUpRulesPass(f: Form)
    requires Utf16Length(Trim(f.name)) >= 2 && ValidEmail(f.email)
    requires Utf16Length(f.password) >= 6 && f.confirmPassword == f.password
    ensures FirstFailing(SignUpChecks(f)) == 8
  {
    var cs := SignUpChecks(f);
    assert Trim(f.name) != "" && f.email != "" && f.password != "";
    assert forall k :: 0 <= k < |cs| ==> !cs[k].fails;
  }

  /** Where the page navigates once the session is authenticated. */
  function PostAuthRedirect(isAuthenticated: bool, isSignUp: bool): (target: Option<string>)
    ensures target.Some? <==> isAuthenticated
    ensures isAuthenticated ==> target.value == (if isSignUp then "/billing-plan" else "/dashboard")
  {
    if !isAuthenticated then None
    else if isSignUp then Some("/billing-plan")
    else Some("/dashboard")
  }

  /** The page's local state. */
  class LoginPage {
    var isSignUp: bool
    var form: Form
    var localError: string

    constructor ()
      ensures !isSignUp && form == EmptyForm && localError == ""
    {
      isSignUp, form, localError := false, EmptyForm, "";
    }

    /** `handleChange`: updates the form, clears the local error, and clears the session error when there is one. */
    method HandleChange(session: Session, t: Target)
      requires session.Valid()
      modifies this, session
      ensures session.Valid()
      ensures form == ApplyChange(old(form), t) && isSignUp == old(isSignUp) && localError == ""
      ensures session.State() == old(session.State()).(error := if Truthy(old(session.error)) then None else old(session.error))
      ensures session.storage == old(session.storage)
    {
      form := ApplyChange(form, t);
      localError := "";
      if Truthy(session.error) {
        session.Dispatch(ClearError);
      }
    }

    /** The "Sign In" / "Sign Up" toggle: switches mode and clears both errors. */
    method SetMode(session: Session, signUp: bool)
      requires session.Valid()
      modifies this, session
      ensures session.Valid()
      ensures isSignUp == signUp && form == old(form) && localError == ""
      ensures session.State() == old(session.State()).(error := None) && session.storage == old(session.storage)
    {
      isSignUp := signUp;
      localError := "";
      session.Dispatch(ClearError);
    }

    /**
     * `handleSubmit`. Both errors are cleared first. If a check fails its
     * message becomes the local error and nothing is dispatched; otherwise
     * the register or login operation runs, with `remote` as the server's answer.
     */
    method HandleSubmit(session: Session, remote: Outcome<AuthPayload>) returns (request: Option<Request>)
      requires session.Valid()
      modifies this, session
      ensures session.Valid()
      ensures form == old(form) && isSignUp == old(isSignUp)
      ensures var cs := Checks(isSignUp, form);
        FirstFailing(cs) < |cs| ==>
          && localError == cs[FirstFailing(cs)].message && request.None?
          && session.State() == old(session.State()).(error := None)
          && session.storage == old(session.storage)
      ensures var cs := Checks(isSignUp, form);
        FirstFailing(cs) == |cs| ==>
          && localError == "" && request == Some(RequestFor(isSignUp, form)) && !session.loading
          && (remote.Fulfilled? ==>
                && session.isAuthenticated && session.error.None?
                && session.user == Some(remote.payload.user) && session.token == Some(remote.payload.token)
                && session.storage == Persist(old(session.storage), remote.payload))
          && (remote.Rejected? ==>
                && session.user == old(session.user) && session.token == old(session.token)
                && session.isAuthenticated == old(session.isAuthenticated)
                && session.error == Some(RejectionMessage(if isSignUp then RegisterUser else LoginUser, remote.message))
                && session.storage == old(session.storage))
    {
      localError := "";
      session.Dispatch(ClearError);
      var problem := Validate(isSignUp, form);
      if problem.Some? {
        localError := problem.value;
        request := None;
      } else {
        request := Some(RequestFor(isSignUp, form));
        if isSignUp {
          session.Begin(RegisterUser);
          session.SettleRegister(remote);
        } else {
          session.Begin(LoginUser);
          session.SettleLogin(remote);
        }
      }
    }
  }
}
