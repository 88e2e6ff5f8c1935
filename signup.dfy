/**
 * The sign-up page: a registration form, then a verification step that
 * sends the code together with the email registered in the first step.
 */
module Signup {
  import opened Wrappers
  import opened Strings

  datatype Step = Register | Verify

  datatype SignupForm = SignupForm(name: string, email: string, password: string, confirmPassword: string)

  datatype Field = Name | Email | Password | ConfirmPassword

  /** The fields the sign-up schema flags; `emailOk` is the email validator's verdict. */
  function SignupErrors(f: SignupForm, emailOk: bool): (errs: set<Field>)
    ensures errs == {} <==> f.name != "" && emailOk && |f.password| >= 8 && f.password == f.confirmPassword
    ensures ConfirmPassword in errs <==> f.password != f.confirmPassword
  {
    (if f.name == "" then {Name} else {}) + (if !emailOk then {Email} else {})
    + (if |f.password| < 8 then {Password} else {})
    + (if f.password != f.confirmPassword then {ConfirmPassword} else {})
  }

  /** The verification code must not be empty. */
  predicate CodeValid(code: string)
  {
    |code| >= 1
  }

  /** Here a one-character code is enough. */
  lemma ShortestCode(c: char)
    ensures CodeValid([c]) && !CodeValid("")
  {
  }

  /** The registration body: the form without the confirmation. */
  function SignupBody(f: SignupForm): (body: map<string, string>)
    ensures body.Keys == {"name", "email", "password"} && "confirmPassword" !in body
    ensures body["name"] == f.name && body["email"] == f.email && body["password"] == f.password
  {
    map["name" := f.name, "email" := f.email, "password" := f.password]
  }

  /**
   * What the page holds. A request's in-flight interval lies inside one
   * `Handle` step (and one method of the page class), so between submits
   * `isLoading` is off.
   */
  datatype State = State(step: Step, userEmail: string, isLoading: bool, route: Option<string>)

  const Initial := State(Register, "", false, None)

  datatype Event =
    | Registered(form: SignupForm, emailOk: bool, ok: bool)
    | CodeEntered(code: string, ok: bool)

  /** Only the current step's form is on screen, and its handler runs only on values the schema accepts. */
  predicate Handled(s: State, e: Event)
  {
    match e
    case Registered(f, emailOk, _) => s.step == Register && SignupErrors(f, emailOk) == {}
    case CodeEntered(code, _) => s.step == Verify && CodeValid(code)
  }

  function Request(s: State, e: Event): (r: Option<map<string, string>>)
    ensures r.Some? <==> Handled(s, e)
    ensures r.Some? && e.Registered? ==> r.value == SignupBody(e.form)
    ensures r.Some? && e.CodeEntered? ==> r.value == map["email" := s.userEmail, "code" := e.code]
  {
    if !Handled(s, e) then None
    else match e
      case Registered(f, _, _) => Some(SignupBody(f))
      case CodeEntered(code, _) => Some(map["email" := s.userEmail, "code" := code])
  }

  function Handle(s: State, e: Event): (r: State)
    ensures r.step != s.step ==> e.Registered? && Handled(s, e) && e.ok && r.step == Verify
    ensures r.step != s.step ==> r.userEmail == e.form.email
    ensures s.step == Verify ==> r.step == Verify && r.userEmail == s.userEmail
    ensures Handled(s, e) ==> !r.isLoading
    ensures !Handled(s, e) ==> r == s
    ensures r.route != s.route ==> e.CodeEntered? && Handled(s, e) && e.ok && r.route == Some("/login")
    ensures Handled(s, e) && e.ok && e.Registered? ==> r.step == Verify && r.userEmail == e.form.email
    ensures Handled(s, e) && e.ok && e.CodeEntered? ==> r.route == Some("/login")
    ensures !e.ok ==> r.step == s.step && r.userEmail == s.userEmail && r.route == s.route
  {
    if !Handled(s, e) then s
    else match e
      case Registered(f, _, ok) =>
        if ok then s.(step := Verify, userEmail := f.email, isLoading := false) else s.(isLoading := false)
      case CodeEntered(_, ok) =>
        if ok then s.(route := Some("/login"), isLoading := false) else s.(isLoading := false)
  }

  function Run(s: State, es: seq<Event>): State
    decreases |es|
  {
    if es == [] then s else Run(Handle(s, es[0]), es[1..])
  }

  /** A valid registration whose request succeeded. */
  predicate AcceptedRegistration(e: Event, email: string)
  {
    e.Registered? && SignupErrors(e.form, e.emailOk) == {} && e.ok && e.form.email == email
  }

  /** Once in the verification step the page stays there with the same email. */
  lemma {:induction false} VerifyIsFinal(s: State, es: seq<Event>)
    requires s.step == Verify
    ensures Run(s, es).step == Verify && Run(s, es).userEmail == s.userEmail
    decreases |es|
  {
    if es != [] {
      VerifyIsFinal(Handle(s, es[0]), es[1..]);
    }
  }

  /** The email the code is sent with is the one that registered successfully. */
  lemma {:induction false} VerifiedEmailOrigin(s: State, es: seq<Event>)
    requires s.step == Register
    ensures Run(s, es).step == Verify ==>
              exists k :: 0 <= k < |es| && AcceptedRegistration(es[k], Run(s, es).userEmail)
    decreases |es|
  {
    if es != [] {
      var t := Handle(s, es[0]);
      if t.step == Register {
        VerifiedEmailOrigin(t, es[1..]);
        if Run(s, es).step == Verify {
          var k :| 0 <= k < |es[1..]| && AcceptedRegistration(es[1..][k], Run(t, es[1..]).userEmail);
          assert AcceptedRegistration(es[k + 1], Run(s, es).userEmail);
        }
      } else {
        VerifyIsFinal(t, es[1..]);
        assert AcceptedRegistration(es[0], Run(s, es).userEmail);
      }
    }
  }

  /** Loading is never left on. */
  lemma {:induction false} RunNeverLoading(s: State, es: seq<Event>)
    requires !s.isLoading
    ensures !Run(s, es).isLoading
    decreases |es|
  {
    if es != [] {
      RunNeverLoading(Handle(s, es[0]), es[1..]);
    }
  }

  /** A valid registration and a code, both accepted, end the flow on the login route. */
  lemma HappyPath(f: SignupForm, code: string)
    requires SignupErrors(f, true) == {} && CodeValid(code)
    ensures Run(Initial, [Registered(f, true, true), CodeEntered(code, true)])
            == State(Verify, f.email, false, Some("/login"))
  {
    var s1 := Handle(Initial, Registered(f, true, true));
    var es := [Registered(f, true, true), CodeEntered(code, true)];
    assert es[1..] == [CodeEntered(code, true)];
    assert Run(Initial, es) == Run(s1, es[1..]);
  }

  function Title(step: Step): string
  {
    if step == Register then "Create an Account" else "Verify Your Email"
  }

  function Description(step: Step, userEmail: string): string
  {
    if step == Register then "Join Estately to find your dream home today."
    else "A verification code has been sent to " + userEmail + ". Please enter it below."
  }

  /** Title and description follow the step. */
  lemma TitleDeterminesStep(a: Step, b: Step, email: string)
    ensures Title(a) == Title(b) ==> a == b
    ensures Description(Register, email) == Description(Register, "")
  {
  }

  /** The verification step's description names the stored email. */
  lemma DescriptionNamesEmail(userEmail: string)
    ensures Contains(Description(Verify, userEmail), userEmail)
  {
    var pre := "A verification code has been sent to ";
    var d := Description(Verify, userEmail);
    assert d[|pre|..|pre| + |userEmail|] == userEmail;
    ContainsAt(d, userEmail, |pre|);
  }

  class SignupPage {
    var step: Step
    var userEmail: string
    var isLoading: bool
    var route: Option<string>

    function Snapshot(): State
      reads this
    {
      State(step, userEmail, isLoading, route)
    }

    constructor ()
      ensures Snapshot() == Initial
    {
      step, userEmail, isLoading, route := Register, "", false, None;
    }

    method SubmitSignup(form: SignupForm, emailOk: bool, ok: bool) returns (request: Option<map<string, string>>)
      modifies this
      ensures Snapshot() == Handle(old(Snapshot()), Registered(form, emailOk, ok))
      ensures request == Request(old(Snapshot()), Registered(form, emailOk, ok))
    {
      request := None;
      if step != Register || SignupErrors(form, emailOk) != {} {
        return;
      }
      isLoading := true;
      request := Some(SignupBody(form));
      if ok {
        userEmail := form.email;
        step := Verify;
      }
      isLoading := false;
    }

    method SubmitCode(code: string, ok: bool) returns (request: Option<map<string, string>>)
      modifies this
      ensures Snapshot() == Handle(old(Snapshot()), CodeEntered(code, ok))
      ensures request == Request(old(Snapshot()), CodeEntered(code, ok))
    {
      request := None;
      if step != Verify || !CodeValid(code) {
        return;
      }
      isLoading := true;
      request := Some(map["email" := userEmail, "code" := code]);
      if ok {
        route := Some("/login");
      }
      isLoading := false;
    }
  }
}
