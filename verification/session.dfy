/** The session state held by `AuthProvider` (src/authContext.tsx).

    The state is the stored token (the token store module is not part of this model; it
    is an optional string here), the resolved user and the `loading` flag. Identity is
    resolved by GET /api/auth/me, which is an oracle: given the bearer token it returns
    the server's reply. Each operation returns the new state, the error its promise
    rejects with (if any) and its trace of effects.
 */
module Session {
  import opened Wrappers
  import opened Strings
  import opened Errors
  import opened Api
  import opened Effects

  datatype Role = UserRole | CompanyRole | AdminRole

  /** `AuthUser`: `id` is the `_id` field; `altId` is the untyped `id` field some pages
      fall back to. */
  datatype User = User(id: string, altId: Option<string>, username: string, email: string, role: Role)

  datatype State = State(token: Option<string>, user: Option<User>, loading: bool)

  /** The endpoint-specific field of the /api/auth/me reply. */
  datatype MeBody = MeBody(user: Option<User>)

  /** The server's answer to GET /api/auth/me for a given bearer token. */
  type Whoami = string -> Reply<MeBody>

  datatype Step = Step(state: State, failure: Option<Thrown>, trace: seq<Effect>)

  /** `getToken()` is truthy. */
  predicate HasToken(s: State) {
    Truthy(s.token)
  }

  /** Whenever a user is present, a token is stored. */
  predicate Invariant(s: State) {
    s.user.Some? ==> HasToken(s)
  }

  /** `res.user` of a successful reply; a body that did not parse has no user. */
  function ReplyUser(body: Option<MeBody>): Option<User> {
    match body
    case Some(b) => b.user
    case None => None
  }

  /** The provider's first state: no user yet, identity still loading. */
  function Initial(stored: Option<string>): (s: State)
    ensures s.token == stored && s.user.None? && s.loading
    ensures Invariant(s)
  {
    State(stored, None, true)
  }

  /** `refreshMe()`: without a token the user is cleared and no request is made; with one,
      the user becomes whatever /api/auth/me returns, and on failure the promise rejects
      and nothing changes. The token and `loading` are never touched. */
  function RefreshMe(s: State, whoami: Whoami): (r: Step)
    ensures !HasToken(s) ==> r == Step(s.(user := None), None, [])
    ensures HasToken(s) ==> r.trace == [Whoami(s.token.value)]
    ensures r.state.token == s.token && r.state.loading == s.loading
    ensures HasToken(s) && Receive(whoami(s.token.value)).Success? ==>
      r.failure.None? && r.state.user == ReplyUser(Receive(whoami(s.token.value)).value)
    ensures HasToken(s) && Receive(whoami(s.token.value)).Failure? ==>
      r.failure == Some(Receive(whoami(s.token.value)).error) && r.state == s
    ensures Invariant(s) ==> Invariant(r.state)
  {
    if !HasToken(s) then
      Step(s.(user := None), None, [])
    else
      var t := s.token.value;
      match Receive(whoami(t))
      case Success(body) => Step(s.(user := ReplyUser(body)), None, [Whoami(t)])
      case Failure(e) => Step(s, Some(e), [Whoami(t)])
  }

  /** `loginWithToken(token)`: the token is stored first, then identity is resolved with
      it. If resolution fails the new token stays stored, the user is left as it was and
      the error propagates. */
  function LoginWithToken(s: State, token: string, whoami: Whoami): (r: Step)
    ensures r.state.token == Some(token) && r.state.loading == s.loading
    ensures |r.trace| >= 1 && r.trace[0] == StoreToken(token)
    ensures token != [] ==> r.trace == [StoreToken(token), Whoami(token)]
    ensures token == [] ==> r.trace == [StoreToken(token)] && r.state.user.None? && r.failure.None?
    ensures r.failure.Some? ==> r.state.user == s.user && token != []
    ensures r.failure.None? && token != [] ==>
      Receive(whoami(token)).Success? && r.state.user == ReplyUser(Receive(whoami(token)).value)
    ensures Invariant(r.state)
  {
    var refreshed := RefreshMe(s.(token := Some(token)), whoami);
    Step(refreshed.state, refreshed.failure, [StoreToken(token)] + refreshed.trace)
  }

  /** The body of a reply that issues a token (password login, email registration). */
  datatype TokenBody = TokenBody(token: Option<string>)

  /** The token of a successful reply; an absent one is handed on as "". */
  function ReplyToken(body: Option<TokenBody>): string {
    match body
    case Some(TokenBody(Some(t))) => t
    case _ => ""
  }

  /** Logging in with a token never navigates by itself; the pages do that afterwards. */
  lemma LoginDoesNotNavigate(s: State, token: string, whoami: Whoami)
    ensures !Navigates(LoginWithToken(s, token, whoami).trace)
  {
  }

  /** `logout()`: token and user are cleared, with no request. */
  function Logout(s: State): (r: Step)
    ensures r.state.token.None? && r.state.user.None? && r.state.loading == s.loading
    ensures r.failure.None? && r.trace == [ClearToken]
    ensures Invariant(r.state)
  {
    Step(s.(token := None, user := None), None, [ClearToken])
  }

  /** The provider's mount effect: resolve identity; if that fails, clear the token and
      the user; in every case `loading` ends false and no error escapes. */
  function Startup(s: State, whoami: Whoami): (r: Step)
    ensures !r.state.loading && r.failure.None?
    ensures RefreshMe(s, whoami).failure.Some? ==>
      r.state.token.None? && r.state.user.None? && r.trace == RefreshMe(s, whoami).trace + [ClearToken]
    ensures RefreshMe(s, whoami).failure.None? ==>
      r.state == RefreshMe(s, whoami).state.(loading := false) && r.trace == RefreshMe(s, whoami).trace
    ensures Invariant(r.state)
  {
    var refreshed := RefreshMe(s, whoami);
    if refreshed.failure.Some? then
      Step(State(None, None, false), None, refreshed.trace + [ClearToken])
    else
      Step(refreshed.state.(loading := false), None, refreshed.trace)
  }

  /** A stored token that the server rejects does not survive startup: the session ends
      anonymous, with no token, and loading has finished. */
  lemma RejectedTokenIsDropped(stored: string, whoami: Whoami)
    requires stored != [] && Receive(whoami(stored)).Failure?
    ensures var r := Startup(Initial(Some(stored)), whoami);
      r.state == State(None, None, false) && r.trace == [Whoami(stored), ClearToken]
  {
  }

  /** Startup with no stored token makes no request and ends anonymous. */
  lemma NoTokenStartsAnonymous(whoami: Whoami)
    ensures Startup(Initial(None), whoami) == Step(State(None, None, false), None, [])
  {
  }

  // ---------------------------------------------------------------------------
  // Sequences of operations

  /** One session operation: the provider's mount, `refreshMe`, `loginWithToken(token)` or `logout`. */
  datatype Op = Mount | Refresh | SignIn(token: string) | SignOut

  function Apply(s: State, op: Op, whoami: Whoami): Step {
    match op
    case Mount => Startup(s, whoami)
    case Refresh => RefreshMe(s, whoami)
    case SignIn(t) => LoginWithToken(s, t, whoami)
    case SignOut => Logout(s)
  }

  /** Runs the operations one after another; a rejected operation leaves its state behind
      and the next one starts from there. */
  function Run(s: State, ops: seq<Op>, whoami: Whoami): State
    decreases |ops|
  {
    if ops == [] then s else Run(Apply(s, ops[0], whoami).state, ops[1..], whoami)
  }

  /** From the initial state, any sequence of operations keeps a user only alongside a
      stored token. */
  lemma {:induction false} RunKeepsInvariant(s: State, ops: seq<Op>, whoami: Whoami)
    requires Invariant(s)
    ensures Invariant(Run(s, ops, whoami))
    decreases |ops|
  {
    if ops != [] {
      RunKeepsInvariant(Apply(s, ops[0], whoami).state, ops[1..], whoami);
    }
  }

  /** Only startup changes `loading`: a run without it leaves the flag as it was. */
  lemma {:induction false} OnlyStartupChangesLoading(s: State, ops: seq<Op>, whoami: Whoami)
    requires forall i :: 0 <= i < |ops| ==> !ops[i].Mount?
    ensures Run(s, ops, whoami).loading == s.loading
    decreases |ops|
  {
    if ops != [] {
      OnlyStartupChangesLoading(Apply(s, ops[0], whoami).state, ops[1..], whoami);
    }
  }
}
