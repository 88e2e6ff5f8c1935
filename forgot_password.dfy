/**
 * The forgot-password page: three steps (enter the email, enter the code
 * sent to it, choose a new password), each advanced only by a successful
 * request, with the email carried from the first step to the others.
 */
module ForgotPassword {
  import opened Wrappers
  import opened Strings

  datatype Step = EnterEmail | EnterCode | ResetPassword

  /** The position of a step in the flow. */
  function Rank(s: Step): nat
  {
    match s
    case EnterEmail => 0
    case EnterCode => 1
    case ResetPassword => 2
  }

  /** The verification code needs at least four characters. */
  predicate CodeValid(code: string)
  {
    |code| >= 4
  }

  /** Four characters are enough, three are not. */
  lemma FourCharacterCode(a: char, b: char, c: char, d: char)
    ensures CodeValid([a, b, c, d]) && !CodeValid([a, b, c])
  {
  }

  datatype PasswordField = Password | ConfirmPassword

  /** The fields the password schema flags: a short password, and a confirmation that differs. */
  function PasswordErrors(password: string, confirm: string): (errs: set<PasswordField>)
    ensures errs == {} <==> |password| >= 8 && password == confirm
    ensures ConfirmPassword in errs <==> password != confirm
    ensures Password in errs <==> |password| < 8
  {
    (if |password| < 8 then {Password} else {}) + (if password != confirm then {ConfirmPassword} else {})
  }

  /**
   * What the page holds; `route` is where the router was sent, if anywhere.
   * A request's in-flight interval lies inside one `Handle` step (and inside
   * one method of the page class), so between submits `isLoading` is off.
   */
  datatype State = State(step: Step, userEmail: string, isLoading: bool, route: Option<string>)

  const Initial := State(EnterEmail, "", false, None)

  /** A submit of one of the three forms, with the outcome of its request. */
  datatype Event =
    | EmailSubmitted(email: string, emailOk: bool, ok: bool)
    | CodeSubmitted(code: string, ok: bool)
    | PasswordSubmitted(password: string, confirm: string, ok: bool)

  /**
   * The handler runs only for the form of the current step (the others are
   * not on screen) and only with values its schema accepts.
   */
  predicate Handled(s: State, e: Event)
  {
    match e
    case EmailSubmitted(_, emailOk, _) => s.step == EnterEmail && emailOk
    case CodeSubmitted(code, _) => s.step == EnterCode && CodeValid(code)
    case PasswordSubmitted(p, c, _) => s.step == ResetPassword && PasswordErrors(p, c) == {}
  }

  /** The request a handled submit sends. */
  function Request(s: State, e: Event): (r: Option<map<string, string>>)
    ensures r.Some? <==> Handled(s, e)
    ensures r.Some? && e.EmailSubmitted? ==> r.value == map["email" := e.email]
    ensures r.Some? && e.CodeSubmitted? ==> r.value == map["email" := s.userEmail, "code" := e.code]
    ensures r.Some? && e.PasswordSubmitted? ==> r.value == map["email" := s.userEmail, "password" := e.password]
  {
    if !Handled(s, e) then None
    else match e
      case EmailSubmitted(email, _, _) => Some(map["email" := email])
      case CodeSubmitted(code, _) => Some(map["email" := s.userEmail, "code" := code])
      case PasswordSubmitted(p, _, _) => Some(map["email" := s.userEmail, "password" := p])
  }

  /** The state after a submit and its request have run their course. */
  function Handle(s: State, e: Event): (r: State)
    ensures Rank(r.step) >= Rank(s.step)
    ensures r.step != s.step ==> Handled(s, e) && e.ok && Rank(r.step) == Rank(s.step) + 1
    ensures s.step != EnterEmail ==> r.userEmail == s.userEmail
    ensures Handled(s, e) ==> !r.isLoading
    ensures !Handled(s, e) ==> r == s
    ensures r.route != s.route ==> e.PasswordSubmitted? && Handled(s, e) && e.ok && r.step == s.step
    ensures Handled(s, e) && e.ok && e.EmailSubmitted? ==> r.step == EnterCode && r.userEmail == e.email
    ensures Handled(s, e) && e.ok && e.CodeSubmitted? ==> r.step == ResetPassword
    ensures Handled(s, e) && e.ok && e.PasswordSubmitted? ==> r.route == Some("/login")
    ensures !e.ok ==> r.step == s.step && r.userEmail == s.userEmail && r.route == s.route
  {
    if !Handled(s, e) then s
    else match e
      case EmailSubmitted(email, _, ok) =>
        if ok then s.(step := EnterCode, userEmail := email, isLoading := false) else s.(isLoading := false)
      case CodeSubmitted(_, ok) =>
        if ok then s.(step := ResetPassword, isLoading := false) else s.(isLoading := false)
      case PasswordSubmitted(_, _, ok) =>
        if ok then s.(route := Some("/login"), isLoading := false) else s.(isLoading := false)
  }

  function Run(s: State, es: seq<Event>): State
    decreases |es|
  {
    if es == [] then s else Run(Handle(s, es[0]), es[1..])
  }

  /** The step never goes back. */
  lemma {:induction false} RunMonotone(s: State, es: seq<Event>)
    ensures Rank(Run(s, es).step) >= Rank(s.step)
    decreases |es|
  {
    if es != [] {
      RunMonotone(Handle(s, es[0]), es[1..]);
    }
  }

  /** Past the first step the stored email is fixed. */
  lemma {:induction false} RunKeepsEmail(s: State, es: seq<Event>)
    requires s.step != EnterEmail
    ensures Run(s, es).step != EnterEmail && Run(s, es).userEmail == s.userEmail
    decreases |es|
  {
    if es != [] {
      RunKeepsEmail(Handle(s, es[0]), es[1..]);
    }
  }

  /** Loading is never left on. */
  lemma {:induction false} RunNeverLoading(s: State, es: seq<Event>)
    requires !s.isLoading
    ensures !Run(s, es).isLoading
    decreases |es|
  {
    if es != [] {
      RunNeverLoading(Handle(s, es[0]), es[1..]);
    }
  }

  /** A valid email whose request succeeded. */
  predicate AcceptedEmail(e: Event, email: string)
  {
    e.EmailSubmitted? && e.emailOk && e.ok && e.email == email
  }

  /** A valid code whose request succeeded. */
  predicate AcceptedCode(e: Event)
  {
    e.CodeSubmitted? && CodeValid(e.code) && e.ok
  }

  /** Once past the first step, the stored email is one that was submitted and accepted. */
  lemma {:induction false} EmailOrigin(s: State, es: seq<Event>)
    requires s.step == EnterEmail
    ensures Run(s, es).step != EnterEmail ==>
              exists k :: 0 <= k < |es| && AcceptedEmail(es[k], Run(s, es).userEmail)
    decreases |es|
  {
    if es != [] {
      var t := Handle(s, es[0]);
      if t.step == EnterEmail {
        EmailOrigin(t, es[1..]);
        if Run(s, es).step != EnterEmail {
          var k :| 0 <= k < |es[1..]| && AcceptedEmail(es[1..][k], Run(t, es[1..]).userEmail);
          assert AcceptedEmail(es[k + 1], Run(s, es).userEmail);
        }
      } else {
        RunKeepsEmail(t, es[1..]);
        assert AcceptedEmail(es[0], Run(s, es).userEmail);
      }
    }
  }

  /** The password step is reached only through an accepted code. */
  lemma {:induction false} ResetNeedsCode(s: State, es: seq<Event>)
    requires s.step != ResetPassword
    ensures Run(s, es).step == ResetPassword ==> exists k :: 0 <= k < |es| && AcceptedCode(es[k])
    decreases |es|
  {
    if es != [] {
      var t := Handle(s, es[0]);
      if t.step != ResetPassword {
        ResetNeedsCode(t, es[1..]);
        if Run(s, es).step == ResetPassword {
          var k :| 0 <= k < |es[1..]| && AcceptedCode(es[1..][k]);
          assert AcceptedCode(es[k + 1]);
        }
      } else {
        assert AcceptedCode(es[0]);
      }
    }
  }

  /** An accepted email, an accepted code and a valid new password end the flow on the login route. */
  lemma HappyPath(email: string, code: string, password: string)
    requires CodeValid(code) && |password| >= 8
    ensures Run(Initial, [EmailSubmitted(email, true, true), CodeSubmitted(code, true),
                          PasswordSubmitted(password, password, true)])
            == State(ResetPassword, email, false, Some("/login"))
  {
    var s1 := Handle(Initial, EmailSubmitted(email, true, true));
    var s2 := Handle(s1, CodeSubmitted(code, true));
    var es := [EmailSubmitted(email, true, true), CodeSubmitted(code, true), PasswordSubmitted(password, password, true)];
    assert es[1..] == [CodeSubmitted(code, true), PasswordSubmitted(password, password, true)];
    assert es[1..][1..] == [PasswordSubmitted(password, password, true)];
    var s3 := Handle(s2, PasswordSubmitted(password, password, true));
    assert es[1..][1..][1..] == [];
    assert Run(Initial, es) == Run(s1, es[1..]) == Run(s2, es[1..][1..]) == Run(s3, []) == s3;
  }

  function Title(step: Step): string
  {
    match step
    case EnterCode => "Enter Verification Code"
    case ResetPassword => "Reset Your Password"
    case EnterEmail => "Forgot Your Password?"
  }

  function Description(step: Step, userEmail: string): string
  {
    match step
    case EnterCode => "A code has been sent to " + userEmail + ". Please enter it below."
    case ResetPassword => "Please enter your new password."
    case EnterEmail => "Enter your email address and we'll send you a code to reset your password."
  }

  /** Each step has its own title. */
  lemma TitleDeterminesStep(a: Step, b: Step)
    ensures Title(a) == Title(b) ==> a == b
  {
  }

  /** The code step's description names the stored email. */
  lemma DescriptionNamesEmail(userEmail: string)
    ensures Contains(Description(EnterCode, userEmail), userEmail)
  {
    var pre := "A code has been sent to ";
    var d := Description(EnterCode, userEmail);
    assert d[|pre|..|pre| + |userEmail|] == userEmail;
    ContainsAt(d, userEmail, |pre|);
  }

  class ForgotPasswordPage {
    var step: Step
    var userEmail: string
    var isLoading: bool
    var route: Option<string>

    function Snapshot(): State
      reads this
    {
      State(step, userEmail, isLoading, route)
    }

    constructor ()
      ensures Snapshot() == Initial
    {
      step, userEmail, isLoading, route := EnterEmail, "", false, None;
    }

    method SubmitEmail(email: string, emailOk: bool, ok: bool) returns (request: Option<map<string, string>>)
      modifies this
      ensures Snapshot() == Handle(old(Snapshot()), EmailSubmitted(email, emailOk, ok))
      ensures request == Request(old(Snapshot()), EmailSubmitted(email, emailOk, ok))
    {
      request := None;
      if step != EnterEmail || !emailOk {
        return;
      }
      isLoading := true;
      request := Some(map["email" := email]);
      if ok {
        userEmail := email;
        step := EnterCode;
      }
      isLoading := false;
    }

    method SubmitCode(code: string, ok: bool) returns (request: Option<map<string, string>>)
      modifies this
      ensures Snapshot() == Handle(old(Snapshot()), CodeSubmitted(code, ok))
      ensures request == Request(old(Snapshot()), CodeSubmitted(code, ok))
    {
      request := None;
      if step != EnterCode || !CodeValid(code) {
        return;
      }
      isLoading := true;
      request := Some(map["email" := userEmail, "code" := code]);
      if ok {
        step := ResetPassword;
      }
      isLoading := false;
    }

    method SubmitPassword(password: string, confirm: string, ok: bool) returns (request: Option<map<string, string>>)
      modifies this
      ensures Snapshot() == Handle(old(Snapshot()), PasswordSubmitted(password, confirm, ok))
      ensures request == Request(old(Snapshot()), PasswordSubmitted(password, confirm, ok))
    {
      request := None;
      if step != ResetPassword || PasswordErrors(password, confirm) != {} {
        return;
      }
      isLoading := true;
      request := Some(map["email" := userEmail, "password" := password]);
      if ok {
        route := Some("/login");
      }
      isLoading := false;
    }
  }
}
