/** The navigation bar (src/components/Navbar.tsx): which links it shows to whom, the
    login and register links that remember the current page, and the unread badge. */
module Navbar {
  import opened Wrappers
  import opened Strings
  import opened Url
  import opened Errors
  import opened Session
  import Login

  /** A link of the bar: its text and where it leads. */
  datatype NavLink = NavLink(text: string, to: Target)

  function Plain(text: string, path: string): NavLink {
    NavLink(text, Target(path, []))
  }

  /** `loginTo` and `registerTo`: the auth pages with the current path and query as `next`. */
  function LoginTo(loc: Location): Target {
    WithNext("/login", PathAndSearch(loc))
  }

  function RegisterTo(loc: Location): Target {
    WithNext("/register", PathAndSearch(loc))
  }

  /** The links in the order they appear: Home, New and Me always; Notifications for a
      signed-in user; Company and Admin by role; Login and Register for a visitor. */
  function Links(user: Option<User>, loc: Location): (r: seq<NavLink>)
    ensures |r| >= 3 && r[..3] == [Plain("Home", "/"), Plain("New", "/ideas/new"), Plain("Me", "/me")]
    ensures Plain("Notifications", "/notifications") in r <==> user.Some?
    ensures Plain("Company", "/company") in r <==> user.Some? && user.value.role == CompanyRole
    ensures Plain("Admin", "/admin/users") in r <==> user.Some? && user.value.role == AdminRole
    ensures NavLink("Login", LoginTo(loc)) in r <==> user.None?
    ensures NavLink("Register", RegisterTo(loc)) in r <==> user.None?
  {
    var always := [Plain("Home", "/"), Plain("New", "/ideas/new"), Plain("Me", "/me")];
    match user
    case None =>
      always + [NavLink("Login", LoginTo(loc)), NavLink("Register", RegisterTo(loc))]
    case Some(u) =>
      always + [Plain("Notifications", "/notifications")]
        + (if u.role == CompanyRole then [Plain("Company", "/company")] else [])
        + (if u.role == AdminRole then [Plain("Admin", "/admin/users")] else [])
  }

  /** The signed-in corner of the bar: the user's name beside a Logout button, which
      calls the session's `logout`. A visitor has no such corner. */
  function AccountArea(user: Option<User>): (r: Option<string>)
    ensures r.Some? <==> user.Some?
    ensures r.Some? ==> r.value == user.value.username
  {
    match user
    case None => None
    case Some(u) => Some(u.username)
  }

  /** Pressing Logout turns the bar back into a visitor's: the account corner and the
      Notifications link go, and the Login and Register links, remembering the current
      page, come back. */
  lemma LogoutShowsLoginLinks(s: Session.State, loc: Location)
    ensures var after := Session.Logout(s).state.user;
      && AccountArea(after).None?
      && Plain("Notifications", "/notifications") !in Links(after, loc)
      && NavLink("Login", LoginTo(loc)) in Links(after, loc)
      && NavLink("Register", RegisterTo(loc)) in Links(after, loc)
  {
  }

  /** Exactly one of the account corner and the Login link is shown. */
  lemma AccountOrLogin(user: Option<User>, loc: Location)
    ensures AccountArea(user).Some? <==> NavLink("Login", LoginTo(loc)) !in Links(user, loc)
  {
  }

  /** Following the Login link from any page with a path brings the visitor back to that
      page after signing in. */
  lemma LoginLinkRoundTrip(loc: Location, search: string, from: Option<Login.From>)
    requires PathAndSearch(loc) != []
    ensures var t := LoginTo(loc);
      Login.LoginNext(Location(t.path, search, t.query), from) == PathAndSearch(loc)
  {
  }

  /** The text of the unread badge: none unless the count is positive, "99+" above 99,
      otherwise the count in decimal. */
  function BadgeLabel(unread: int): (r: Option<string>)
    ensures r.Some? <==> unread > 0
    ensures unread > 99 ==> r == Some("99+")
    ensures 0 < unread <= 99 ==> r.Some? && AllDigits(r.value) && DecimalValue(r.value) == unread
  {
    if unread <= 0 then None
    else if unread > 99 then Some("99+")
    else Some(IntToString(unread))
  }

  /** A badge reads back as the count it shows, and never takes more than two characters. */
  lemma {:induction false} BadgeReadsBack(unread: int)
    requires 0 < unread <= 99
    ensures ParseInt(BadgeLabel(unread).value) == Int(unread)
    ensures |BadgeLabel(unread).value| <= 2
  {
    ParseIntRoundTrip(unread);
    if unread >= 10 {
      assert NatToDecimal(unread) == NatToDecimal(unread / 10) + [DigitChar(unread % 10)];
      assert |NatToDecimal(unread / 10)| == 1;
    }
  }

  /** The reply of the unread-count request. */
  datatype CountBody = CountBody(count: Option<int>)

  /** The unread count after one `load()`, and whether it asked the server. `outcome` is
      how the count request settled; a body that did not parse reads as `{}`. With no
      user the count is 0 without a request; a failure keeps the previous count; a
      missing or zero count reads as 0. */
  function LoadUnread(user: Option<User>, current: int, outcome: Result<Option<CountBody>, Thrown>)
    : (r: (int, bool))
    ensures r.1 <==> user.Some?
    ensures user.None? ==> r.0 == 0
    ensures user.Some? && outcome.Failure? ==> r.0 == current
    ensures user.Some? && outcome.Success? && outcome.value.Some? && outcome.value.value.count.Some? ==>
      r.0 == outcome.value.value.count.value
    ensures user.Some? && outcome.Success? && (outcome.value.None? || outcome.value.value.count.None?) ==>
      r.0 == 0
  {
    if user.None? then (0, false)
    else
      match outcome
      case Failure(_) => (current, true)
      case Success(body) =>
        var count := if body.Some? then body.value.count else None;
        (if count.Some? && count.value != 0 then count.value else 0, true)
  }

  /** A visitor never sees a badge, whatever the previous count was. */
  lemma VisitorHasNoBadge(current: int, outcome: Result<Option<CountBody>, Thrown>)
    ensures BadgeLabel(LoadUnread(None, current, outcome).0).None?
  {
  }
}
