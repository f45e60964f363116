/** The password login page (src/pages/LoginPage.tsx): which `next` it returns to,
    when its button is enabled, and what `submit` does. */
module Login {
  import opened Wrappers
  import opened Strings
  import opened Url
  import opened Errors
  import opened Api
  import opened Effects
  import opened Session
  import SafeNext
  import RouteGuard

  /** `location.state.from`, set by a `<Navigate state={{ from }}>` elsewhere. */
  datatype From = From(pathname: string, search: string)

  /** `next`: the query's `next`, else the path and query of `state.from` when it has a
      pathname, else "/". Nothing is sanitised. */
  function LoginNext(loc: Location, from: Option<From>): (r: string)
    ensures Truthy(Get(loc.query, "next")) ==> r == Get(loc.query, "next").value
    ensures !Truthy(Get(loc.query, "next")) && from.Some? && from.value.pathname != [] ==>
      r == from.value.pathname + from.value.search
    ensures !Truthy(Get(loc.query, "next")) && (from.None? || from.value.pathname == []) ==> r == "/"
  {
    var qNext := Get(loc.query, "next");
    var sNext := if from.Some? && from.value.pathname != [] then Some(from.value.pathname + from.value.search) else None;
    if Truthy(qNext) then qNext.value
    else if Truthy(sNext) then sNext.value
    else "/"
  }

  /** The guard's redirect lands on the login page with a `next` that brings the visitor
      back to where they were. */
  lemma GuardRedirectRoundTrip(user: Option<User>, loc: Location, from: Option<From>, search: string)
    requires user.None? && PathAndSearch(loc) != []
    ensures var g := RouteGuard.Guard(false, user, loc);
      g.Redirect? && LoginNext(Location(g.to.path, search, g.to.query), from) == PathAndSearch(loc)
  {
  }

  /** The login page passes `next` on unsanitised: a protocol-relative target and the
      register page are both navigated to as given, though the shared sanitiser would
      replace them by "/". */
  lemma NextIsNotSanitised(search: string)
    ensures LoginNext(Location("/login", search, [("next", "//evil.example")]), None) == "//evil.example"
    ensures SafeNext.SafeNext(Some("//evil.example")) == "/"
    ensures LoginNext(Location("/login", search, [("next", "/register")]), None) == "/register"
    ensures SafeNext.SafeNext(Some("/register")) == "/"
  {
  }

  /** The login button is enabled unless a request is running, the identifier is blank
      after trimming, or the password is empty. */
  predicate SubmitEnabled(loading: bool, identifier: string, password: string) {
    !loading && !IsBlank(identifier) && password != []
  }

  /** An identifier made only of whitespace keeps the button disabled, and any identifier
      with a visible character (with a password) enables it. */
  lemma SubmitEnabledExactly(identifier: string, password: string)
    ensures SubmitEnabled(false, identifier, password) <==>
      password != [] && exists i :: 0 <= i < |identifier| && !IsWhitespace(identifier[i])
  {
  }

  /** The page after `submit`: the session, the `err` text, the `loading` flag and the trace. */
  datatype Submitted = Submitted(session: Session.State, err: string, loading: bool, trace: seq<Effect>)

  function LoginCall(identifier: string, password: string): Effect {
    Call(POST, "/api/auth/login", [], [("emailOrUsername", Str(identifier)), ("password", Str(password))])
  }


  /** `submit()`: the login request, then `loginWithToken` with the returned token, then
      navigation to `next`. Any failure is shown humanised and nothing is navigated; in
      every case `loading` ends false. */
  function Submit(s: Session.State, identifier: string, password: string, next: string,
                  reply: Reply<TokenBody>, whoami: Whoami): (r: Submitted)
    ensures !r.loading && |r.trace| >= 1 && r.trace[0] == LoginCall(identifier, password)
    ensures Receive(reply).Failure? ==>
      r == Submitted(s, HumanizeError(Receive(reply).error), false, [LoginCall(identifier, password)])
    ensures Receive(reply).Success? ==>
      var token := ReplyToken(Receive(reply).value);
      var login := LoginWithToken(s, token, whoami);
      && r.session == login.state
      && |r.trace| >= 2 && r.trace[1] == StoreToken(token)
      && (login.failure.Some? ==>
            && r.err == HumanizeError(login.failure.value)
            && r.trace == [LoginCall(identifier, password)] + login.trace)
      && (login.failure.None? ==>
            && r.err == ""
            && r.trace == [LoginCall(identifier, password)] + login.trace + [Navigate(next, false)])
    ensures Navigates(r.trace) <==> r.err == []
    ensures Navigates(r.trace) ==> r.trace[|r.trace| - 1] == Navigate(next, false)
  {
    var call := LoginCall(identifier, password);
    match Receive(reply)
    case Failure(e) => Submitted(s, HumanizeError(e), false, [call])
    case Success(body) =>
      var login := LoginWithToken(s, ReplyToken(body), whoami);
      LoginDoesNotNavigate(s, ReplyToken(body), whoami);
      match login.failure
      case Some(e) =>
        assert !Navigates([call] + login.trace) by {
          assert forall i :: 1 <= i < |[call] + login.trace| ==> ([call] + login.trace)[i] == login.trace[i - 1];
        }
        Submitted(login.state, HumanizeError(e), false, [call] + login.trace)
      case None =>
        var trace := [call] + login.trace + [Navigate(next, false)];
        assert trace[|trace| - 1].Navigate?;
        Submitted(login.state, "", false, trace)
  }

  /** The login is not all-or-nothing: a 2xx identity reply whose body does not parse still
      counts as success, so the page navigates with no user signed in. */
  lemma NavigatesWithoutUser(s: Session.State, identifier: string, password: string, next: string)
    ensures var whoami: Whoami := (t: string) => Reply(200, Unparsable);
      var r := Submit(s, identifier, password, next, Reply(200, Json(None, None, TokenBody(Some("t")))), whoami);
      Navigates(r.trace) && r.session.user.None?
  {
    var whoami: Whoami := (t: string) => Reply(200, Unparsable);
    var r := Submit(s, identifier, password, next, Reply(200, Json(None, None, TokenBody(Some("t")))), whoami);
    assert r.trace[|r.trace| - 1].Navigate?;
  }
}
