/** The two halves of the OAuth handoff: starting it from the buttons
    (src/components/OAuthButtons.tsx) and finishing it on the callback page
    (src/pages/OAuthCallbackPage.tsx). */
module OAuth {
  import opened Wrappers
  import opened Strings
  import opened Url
  import opened Errors
  import opened Effects
  import opened Session
  import opened SafeNext
  import opened Api

  // ---------------------------------------------------------------------------
  // Initiation

  datatype Provider = Google | GitHub

  /** The fixed server path each button opens. */
  function ProviderPath(p: Provider): string {
    match p
    case Google => "/api/auth/oauth/google"
    case GitHub => "/api/auth/oauth/github"
  }

  predicate EndsWithSlash(s: string) {
    s != [] && s[|s| - 1] == '/'
  }

  /** `getServerBase()`: a configured base that is not blank is used trimmed and with one
      trailing "/" removed (only one: "x//" becomes "x/"); otherwise the page's origin. */
  function ServerBase(env: Option<string>, origin: string): (r: string)
    ensures env.None? || IsBlank(env.value) ==> r == origin
    ensures env.Some? && !IsBlank(env.value) && EndsWithSlash(Trim(env.value)) ==> r + "/" == Trim(env.value)
    ensures env.Some? && !IsBlank(env.value) && !EndsWithSlash(Trim(env.value)) ==> r == Trim(env.value)
  {
    if Truthy(env) && !IsBlank(env.value) then
      var t := Trim(env.value);
      if EndsWithSlash(t) then t[..|t| - 1] else t
    else origin
  }

  /** Only a single trailing slash is removed, after trimming: " x// " gives "x/". */
  lemma ServerBaseStripsOneSlash(origin: string)
    ensures ServerBase(Some(" x// "), origin) == "x/"
  {
    var s := " x// ";
    assert !IsWhitespace('x') && !IsWhitespace('/');
    assert Lead(s, 1) == 1;
    assert Lead(s, 0) == 1;
    assert Tail(s, 4, 1) == 4;
    assert Tail(s, 5, 1) == 4;
    assert Trim(s) == "x//";
  }

  /** A blank configured base falls back to the origin. */
  lemma BlankBaseUsesOrigin(origin: string)
    ensures ServerBase(Some("  "), origin) == origin
  {
    assert AllWhitespace("  ");
  }

  /** The `next` a button sends: the query's `next`, else the current path, else "/".
      It is not sanitised. */
  function InitiationNext(loc: Location): (r: string)
    ensures Truthy(Get(loc.query, "next")) ==> r == Get(loc.query, "next").value
    ensures !Truthy(Get(loc.query, "next")) && loc.pathname != [] ==> r == loc.pathname
    ensures !Truthy(Get(loc.query, "next")) && loc.pathname == [] ==> r == Root
  {
    var fromQuery := Get(loc.query, "next");
    if Truthy(fromQuery) then fromQuery.value
    else if loc.pathname != [] then loc.pathname
    else Root
  }

  /** Pressing a button on the login page with no query asks to come back to "/login". */
  lemma InitiationFromLoginPage(search: string)
    ensures InitiationNext(Location("/login", search, [])) == "/login"
  {
  }

  /** What `go()` leaves behind: the full-page navigations it started and its `loading` flag. */
  datatype Started = Started(trace: seq<Effect>, loading: bool)

  /** `go()`. `parse` stands for `new URL(...)`: the parsed URL, or `None` when it throws.
      A `Target` keeps only the path and query, so the scheme and host of the provider URL,
      and whether they are those of `ServerBase`, are whatever `parse` says: the model
      makes no claim about them.
      On success the browser is sent to the provider URL with `next` set and the button
      stays in its loading state; if the URL cannot be built nothing is navigated and
      loading is reset. */
  function Go(env: Option<string>, origin: string, provider: Provider, loc: Location,
              parse: string -> Option<Target>): (r: Started)
    ensures var url := parse(ServerBase(env, origin) + ProviderPath(provider));
      && (url.None? ==> r == Started([], false))
      && (url.Some? ==>
            && r.loading && |r.trace| == 1 && r.trace[0].Assign?
            && r.trace[0].url.path == url.value.path
            && Get(r.trace[0].url.query, "next") == Some(InitiationNext(loc))
            && Delete(r.trace[0].url.query, "next") == Delete(url.value.query, "next"))
  {
    match parse(ServerBase(env, origin) + ProviderPath(provider))
    case None => Started([], false)
    case Some(url) => Started([Assign(Target(url.path, Set(url.query, "next", InitiationNext(loc))))], true)
  }

  // ---------------------------------------------------------------------------
  // Callback

  datatype Status = Loading | Failed

  /** The page's `status` and `err`, the session after the effect, and the effect's trace. */
  datatype Finished = Finished(session: Session.State, status: Status, err: string, trace: seq<Effect>)

  const MissingToken := "Missing token in callback URL."

  /** The callback effect. An `error` parameter wins over everything and is shown, joined
      to `message` when there is one; the session is not touched. With no error and no
      token the callback is malformed. Otherwise the token is handed to `loginWithToken`
      and, once that succeeds, the page navigates, replacing history, to the `next`
      parameter as sanitised by the page's own copy of `safeNext`; if it fails the
      humanised error is shown and nothing is navigated. */
  function Callback(s: Session.State, query: Query, whoami: Whoami): (r: Finished)
    ensures var error, message := Get(query, "error"), Get(query, "message");
      Truthy(error) ==>
        && r.session == s && r.status == Failed && r.trace == []
        && (Truthy(message) ==> r.err == error.value + ": " + message.value)
        && (!Truthy(message) ==> r.err == error.value)
    ensures !Truthy(Get(query, "error")) && !Truthy(Get(query, "token")) ==>
      r == Finished(s, Failed, MissingToken, [])
    ensures !Truthy(Get(query, "error")) && Truthy(Get(query, "token")) ==>
      var token := Get(query, "token").value;
      var login := LoginWithToken(s, token, whoami);
      && r.session == login.state
      && login.trace <= r.trace
      && (login.failure.Some? ==> r.status == Failed && r.err == HumanizeError(login.failure.value) && r.trace == login.trace)
      && (login.failure.None? ==> r.status == Loading && r.trace == login.trace + [Navigate(CallbackSafeNext(Get(query, "next")), true)])
    ensures r.status == Failed <==> !Navigates(r.trace)
    ensures r.status == Failed ==> r.err != []
  {
    var token, error, message := Get(query, "token"), Get(query, "error"), Get(query, "message");
    if Truthy(error) then
      var msg := if Truthy(message) then error.value + ": " + message.value else error.value;
      Finished(s, Failed, msg, [])
    else if !Truthy(token) then
      Finished(s, Failed, MissingToken, [])
    else
      var login := LoginWithToken(s, token.value, whoami);
      LoginDoesNotNavigate(s, token.value, whoami);
      match login.failure
      case Some(e) => Finished(login.state, Failed, HumanizeError(e), login.trace)
      case None =>
        var trace := login.trace + [Navigate(CallbackSafeNext(Get(query, "next")), true)];
        assert trace[|trace| - 1].Navigate?;
        Finished(login.state, Loading, "", trace)
  }

  /** The OAuth round trip from any page: when the provider hands the button's `next` back
      unchanged with a token the server accepts, the token is stored and the callback
      navigates, replacing history, to that `next` as the callback's sanitiser leaves
      it, which is the very page the button asked for whenever that is an in-site path. */
  lemma {:induction false} InitiationRoundTrip(s: Session.State, loc: Location, token: string, whoami: Whoami)
    requires token != [] && Receive(whoami(token)).Success?
    ensures var next := InitiationNext(loc);
      var r := Callback(s, [("token", token), ("next", next)], whoami);
      && r.session.token == Some(token)
      && |r.trace| >= 1 && r.trace[|r.trace| - 1] == Navigate(CallbackSafeNext(Some(next)), true)
      && (InSite(next) ==> CallbackSafeNext(Some(next)) == next)
  {
    var next := InitiationNext(loc);
    var q := [("token", token), ("next", next)];
    assert q[1..] == [("next", next)] && q[1..][1..] == [];
    assert "token"[0] != "error"[0] && "next"[0] != "error"[0] && "next"[0] != "token"[0];
    assert Get(q[1..], "error") == None;
    assert Get(q, "error") == None;
    assert Get(q, "token") == Some(token);
    assert Get(q, "next") == Some(next);
  }

  /** An OAuth login started from the bare login page returns to the login page: the
      button asks for "/login" and the callback's copy of the sanitiser keeps it, where the
      shared sanitiser would have sent the user to "/". */
  lemma LoginPageRoundTrip(s: Session.State, token: string, whoami: Whoami)
    requires token != [] && Receive(whoami(token)).Success?
    ensures var next := InitiationNext(Location("/login", "", []));
      var r := Callback(s, [("token", token), ("next", next)], whoami);
      && |r.trace| >= 1 && r.trace[|r.trace| - 1] == Navigate("/login", true)
      && SafeNext.SafeNext(Some(next)) == Root
  {
    InitiationRoundTrip(s, Location("/login", "", []), token, whoami);
    LoginPageContrast();
  }
}
