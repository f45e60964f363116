/** The email-code registration page (src/pages/RegisterPage.tsx): a two-step machine
    (START, then VERIFY once a code has been sent), its enabling predicates and the
    requests each step sends. */
module Register {
  import opened Wrappers
  import opened Strings
  import opened Url
  import opened Errors
  import opened Api
  import opened Effects
  import opened Session
  import SafeNext

  datatype Step = Start | Verify

  /** The account kinds a visitor can choose; they are sent as "user" and "company". */
  datatype Kind = Creator | Company

  function KindName(k: Kind): string {
    match k
    case Creator => "user"
    case Company => "company"
  }

  datatype Form = Form(step: Step, username: string, email: string, password: string, kind: Kind,
                       code: string, err: string, loading: bool)

  /** The page as it first renders. */
  function InitialForm(): (f: Form)
    ensures f.step == Step.Start && f.kind == Creator && !f.loading && f.err == []
  {
    Form(Step.Start, "", "", "", Creator, "", "", false)
  }

  /** `canSend`: username and email are not blank after trimming and the password, as
      typed, is at least six UTF-16 code units long. */
  predicate CanSend(f: Form) {
    !IsBlank(f.username) && !IsBlank(f.email) && Utf16Length(f.password) >= 6
  }

  /** `canVerify`: everything `canSend` needs, and a code that is not blank. */
  predicate CanVerify(f: Form) {
    CanSend(f) && !IsBlank(f.code)
  }

  /** The identity inputs and the account-kind buttons are disabled while a request runs
      and throughout the VERIFY step, so the data verified is the data the code was sent for. */
  predicate IdentityLocked(f: Form) {
    f.loading || f.step == Verify
  }

  /** Verification needs exactly what sending needs, plus a non-blank code; a password of
      six spaces is long enough. */
  lemma EnablingPredicates(f: Form)
    ensures CanVerify(f) ==> CanSend(f)
    ensures CanSend(f) && !IsBlank(f.code) ==> CanVerify(f)
    ensures CanSend(f.(password := "      ")) <==> !IsBlank(f.username) && !IsBlank(f.email)
  {
  }

  /** The password's length is counted in UTF-16 code units: four letters and one emoji
      make six, enough to send, though only five characters. */
  lemma EmojiCountsTwice()
    ensures CanSend(InitialForm().(username := "u", email := "e", password := "abcd\U{1F600}"))
  {
    var pw := "abcd\U{1F600}";
    assert pw[1..][1..][1..][1..] == "\U{1F600}";
    assert Utf16Length("\U{1F600}") == 2;
    assert Utf16Length(pw) == 6;
    assert Trim("u") == "u" && Trim("e") == "e";
  }

  /** The "Send code" button is shown in START and enabled when not loading and `canSend`. */
  predicate SendEnabled(f: Form) {
    f.step == Step.Start && !f.loading && CanSend(f)
  }

  /** The "Verify" button is shown in VERIFY and enabled when not loading and `canVerify`. */
  predicate VerifyEnabled(f: Form) {
    f.step == Verify && !f.loading && CanVerify(f)
  }

  /** The "Back" button is shown in VERIFY and enabled when not loading. */
  predicate BackEnabled(f: Form) {
    f.step == Verify && !f.loading
  }

  /** At most one of the two submitting buttons is enabled, and whenever one is, the
      identity inputs are locked exactly when it is the verify button. */
  lemma OneSubmitAtATime(f: Form)
    ensures !(SendEnabled(f) && VerifyEnabled(f))
    ensures SendEnabled(f) ==> !IdentityLocked(f)
    ensures VerifyEnabled(f) ==> IdentityLocked(f) && BackEnabled(f)
  {
  }

  const StartPath := "/api/auth/email/register/start"
  const VerifyPath := "/api/auth/email/register/verify"

  function StartCall(f: Form): Effect {
    Call(POST, StartPath, [], [("username", Str(f.username)), ("email", Str(f.email)), ("password", Str(f.password))])
  }

  function VerifyCall(f: Form): Effect {
    Call(POST, VerifyPath, [],
      [("username", Str(f.username)), ("email", Str(f.email)), ("password", Str(f.password)),
       ("role", Str(KindName(f.kind))), ("code", Str(f.code))])
  }

  /** The chosen account kind travels only with the verify request. */
  lemma RoleOnlyInVerify(f: Form)
    ensures forall i :: 0 <= i < |StartCall(f).body| ==> StartCall(f).body[i].0 != "role"
    ensures ("role", Str(KindName(f.kind))) in VerifyCall(f).body
  {
    assert VerifyCall(f).body[3] == ("role", Str(KindName(f.kind)));
  }

  /** `sendCode()`: sends the start request; on success the form moves to VERIFY with no
      error, on failure it stays in its step with the humanised error. Only the step, the
      error and the loading flag change. */
  function SendCode(f: Form, reply: Reply<()>): (r: (Form, seq<Effect>))
    ensures r.1 == [StartCall(f)]
    ensures r.0 == f.(step := r.0.step, err := r.0.err, loading := false)
    ensures Receive(reply).Success? ==> r.0.step == Verify && r.0.err == []
    ensures Receive(reply).Failure? ==> r.0.step == f.step && r.0.err == HumanizeError(Receive(reply).error)
    ensures r.0.err == [] <==> r.0.step == Verify && Receive(reply).Success?
  {
    match Receive(reply)
    case Success(_) => (f.(step := Verify, err := "", loading := false), [StartCall(f)])
    case Failure(e) => (f.(err := HumanizeError(e), loading := false), [StartCall(f)])
  }

  /** The code is verified for the identity it was sent to: after a successful send the
      verify request repeats the start request's fields, in order, and adds the role and
      the code. */
  lemma VerifyRepeatsSentIdentity(f: Form, reply: Reply<()>)
    requires Receive(reply).Success?
    ensures var g := SendCode(f, reply).0;
      && g.step == Verify
      && IdentityLocked(g)
      && VerifyCall(g).body[..3] == StartCall(f).body
      && VerifyCall(g).body[3..] == [("role", Str(KindName(f.kind))), ("code", Str(f.code))]
  {
  }

  /** `backToStart()`: back to START with the code and the error cleared; username, email,
      password and account kind are kept. */
  function BackToStart(f: Form): (r: Form)
    ensures r.step == Step.Start && r.code == [] && r.err == []
    ensures r.username == f.username && r.email == f.email && r.password == f.password && r.kind == f.kind
    ensures r.loading == f.loading
  {
    f.(step := Step.Start, code := "", err := "")
  }

  /** `next` of the register page: the query's `next`, else "/", unsanitised. */
  function RegisterNext(query: Query): (r: string)
    ensures Truthy(Get(query, "next")) ==> r == Get(query, "next").value
    ensures !Truthy(Get(query, "next")) ==> r == "/"
  {
    OrElse(Get(query, "next"), "/")
  }

  /** `verifyAndCreate()`: the verify request, then `loginWithToken` with the returned
      token, then navigation to `next`. A failure anywhere leaves the humanised error and
      no navigation. The step is not changed. */
  function VerifyAndCreate(f: Form, s: Session.State, query: Query, reply: Reply<TokenBody>, whoami: Whoami)
    : (r: (Form, Session.State, seq<Effect>))
    ensures r.0 == f.(err := r.0.err, loading := false)
    ensures |r.2| >= 1 && r.2[0] == VerifyCall(f)
    ensures Receive(reply).Failure? ==>
      r == (f.(err := HumanizeError(Receive(reply).error), loading := false), s, [VerifyCall(f)])
    ensures Receive(reply).Success? ==>
      var login := LoginWithToken(s, ReplyToken(Receive(reply).value), whoami);
      && r.1 == login.state
      && (login.failure.Some? ==>
            && r.0.err == HumanizeError(login.failure.value)
            && r.2 == [VerifyCall(f)] + login.trace)
      && (login.failure.None? ==>
            && r.0.err == []
            && r.2 == [VerifyCall(f)] + login.trace + [Navigate(RegisterNext(query), false)])
    ensures Navigates(r.2) <==> r.0.err == []
  {
    var call := VerifyCall(f);
    match Receive(reply)
    case Failure(e) => (f.(err := HumanizeError(e), loading := false), s, [call])
    case Success(body) =>
      var login := LoginWithToken(s, ReplyToken(body), whoami);
      LoginDoesNotNavigate(s, ReplyToken(body), whoami);
      match login.failure
      case Some(e) =>
        assert !Navigates([call] + login.trace) by {
          assert forall i :: 1 <= i < |[call] + login.trace| ==> ([call] + login.trace)[i] == login.trace[i - 1];
        }
        (f.(err := HumanizeError(e), loading := false), login.state, [call] + login.trace)
      case None =>
        var trace := [call] + login.trace + [Navigate(RegisterNext(query), false)];
        assert trace[|trace| - 1].Navigate?;
        (f.(err := "", loading := false), login.state, trace)
  }

  /** After registering from a link whose `next` is the login page, the new user is sent
      to the login page: the target is not sanitised. */
  lemma VerifyNextIsNotSanitised()
    ensures RegisterNext([("next", "/login")]) == "/login"
    ensures SafeNext.SafeNext(Some("/login")) == "/"
  {
  }
}
