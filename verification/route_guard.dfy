/** `ProtectedRoute` (src/components/ProtectedRoute.tsx): a pure decision from the
    session's `loading` flag, its user and the current location. */
module RouteGuard {
  import opened Wrappers
  import opened Url
  import opened Session
  import opened Strings
  import SafeNext

  datatype Outcome =
    | Placeholder                          // the "Loading..." text
    | Redirect(to: Target, replace: bool)  // <Navigate to=... replace />
    | Children                             // the protected page

  /** While identity is loading only the placeholder shows, even if a user is known.
      Once loaded, a visitor without a user is sent, replacing history, to the login page
      with the current path and query as `next`; a signed-in user sees the page. */
  function Guard(loading: bool, user: Option<User>, loc: Location): (g: Outcome)
    ensures g.Placeholder? <==> loading
    ensures g.Redirect? <==> !loading && user.None?
    ensures g.Children? <==> !loading && user.Some?
    ensures g.Redirect? ==> g.replace && g.to.path == "/login"
    ensures g.Redirect? ==> Get(g.to.query, "next") == Some(PathAndSearch(loc))
  {
    if loading then Placeholder
    else if user.None? then Redirect(WithNext("/login", PathAndSearch(loc)), true)
    else Children
  }

  /** The route patterns App.tsx wraps in the guard. */
  const ProtectedPatterns: seq<string> :=
    ["/ideas/:id/edit", "/ideas/new", "/me", "/company", "/notifications", "/admin/users"]

  /** React Router compares path characters without regard to ASCII case. */
  function FoldCase(c: char): (d: char)
    ensures d == '/' <==> c == '/'
    ensures 'a' <= d <= 'z' <==> 'a' <= c <= 'z' || 'A' <= c <= 'Z'
  {
    if 'A' <= c <= 'Z' then (c as int + 32) as char else c
  }

  /** The name of a `:name` parameter, dropped up to the next "/". */
  function DropName(pattern: string): (r: string)
    ensures |r| <= |pattern|
    ensures r == [] || r[0] == '/'
  {
    if pattern == [] || pattern[0] == '/' then pattern else DropName(pattern[1..])
  }

  /** Nothing but "/" characters. */
  predicate AllSlashes(s: string) {
    s == [] || (s[0] == '/' && AllSlashes(s[1..]))
  }

  /** Whether a route pattern matches a concrete pathname, as React Router 6 compiles a
      pattern: literal characters match without regard to case, a `:name` parameter matches
      one non-empty segment, and any run of trailing "/" is allowed. */
  predicate Matches(pattern: string, path: string)
    decreases |pattern| + |path|
  {
    if pattern == [] then AllSlashes(path)
    else if pattern[0] == ':' then SegmentThen(DropName(pattern[1..]), path)
    else path != [] && FoldCase(path[0]) == pattern[0] && Matches(pattern[1..], path[1..])
  }

  /** `path` is a non-empty run of characters other than "/", then a path `rest` matches. */
  predicate SegmentThen(rest: string, path: string)
    decreases |rest| + |path|
  {
    path != [] && path[0] != '/' && (Matches(rest, path[1..]) || SegmentThen(rest, path[1..]))
  }

  /** A pattern that starts with "/" and a literal character fixes the first two characters
      of every path it matches, up to case. */
  lemma LiteralStart(pattern: string, path: string)
    requires |pattern| >= 2 && pattern[0] == '/' && pattern[1] != ':'
    requires Matches(pattern, path)
    ensures |path| >= 2 && path[0] == '/' && FoldCase(path[1]) == pattern[1]
  {
    assert Matches(pattern[1..], path[1..]);
    assert pattern[1..][0] == pattern[1];
  }

  /** Every pathname a guarded route matches, with any query, is accepted by the shared
      sanitiser. So the `next` the guard captures there is read back unchanged after login. */
  lemma GuardedPathsAreAcceptable(i: nat, loc: Location)
    requires i < |ProtectedPatterns| && Matches(ProtectedPatterns[i], loc.pathname)
    ensures SafeNext.Acceptable(PathAndSearch(loc))
    ensures SafeNext.SafeNext(Get(Guard(false, None, loc).to.query, "next")) == PathAndSearch(loc)
  {
    var pattern := ProtectedPatterns[i];
    assert pattern[0] == '/' && pattern[1] in "imcna";
    LiteralStart(pattern, loc.pathname);
    var s := PathAndSearch(loc);
    assert s[0] == loc.pathname[0] && s[1] == loc.pathname[1];
    assert s[1] != '/' && s[1] != 'l' && s[1] != 'r';
    assert s[..1] == "/";
    assert s[..2] != "//" && s[..2] != "/l" && s[..2] != "/r";
    assert !StartsWith(s, "/login") by { assert "/login"[..2] == "/l"; }
    assert !StartsWith(s, "/register") by { assert "/register"[..2] == "/r"; }
  }

  /** A literal run of lower-case pattern characters matches only itself, so it can be
      stripped from the pattern and the path together. */
  lemma {:induction false} LiteralPrefix(lit: string, rest: string, tail: string)
    requires forall k :: 0 <= k < |lit| ==> lit[k] != ':' && FoldCase(lit[k]) == lit[k]
    ensures Matches(lit + rest, lit + tail) <==> Matches(rest, tail)
  {
    if lit != [] {
      LiteralPrefix(lit[1..], rest, tail);
      assert (lit + rest)[1..] == lit[1..] + rest;
      assert (lit + tail)[1..] == lit[1..] + tail;
      assert (lit + rest)[0] == lit[0] && (lit + tail)[0] == lit[0];
    } else {
      assert lit + rest == rest && lit + tail == tail;
    }
  }

  /** The edit route matches a concrete idea's edit page and refuses an empty id. */
  lemma EditRouteMatches()
    ensures Matches(ProtectedPatterns[0], "/ideas/abc/edit")
    ensures !Matches(ProtectedPatterns[0], "/ideas//edit")
  {
    var head, edit := "/ideas/", "/edit";
    assert ProtectedPatterns[0] == head + ":id/edit";
    assert "/ideas/abc/edit" == head + "abc/edit";
    assert "/ideas//edit" == head + edit;
    LiteralPrefix(head, ":id/edit", "abc/edit");
    LiteralPrefix(head, ":id/edit", edit);
    assert DropName("id/edit") == edit;
    LiteralPrefix(edit, [], []);
    assert edit + [] == edit;
    assert Matches(edit, "c/edit"[1..]);
    assert SegmentThen(edit, "bc/edit"[1..]);
    assert SegmentThen(edit, "abc/edit"[1..]);
    assert SegmentThen(edit, "abc/edit");
  }

  /** A guarded route matches its path with any number of trailing "/" and nothing longer. */
  lemma TrailingSlashesMatch()
    ensures Matches(ProtectedPatterns[2], "/me//")
    ensures !Matches(ProtectedPatterns[2], "/me/x")
  {
    LiteralPrefix("/me", [], "//");
    LiteralPrefix("/me", [], "/x");
    assert ProtectedPatterns[2] + [] == "/me";
    assert "/me" + "//" == "/me//" && "/me" + "/x" == "/me/x";
    assert AllSlashes("//"[1..]);
    assert !AllSlashes("/x"[1..]);
  }

  /** None of the guarded routes is refused by the shared sanitiser, so a `next` captured by
      the guard on one of them survives it. */
  lemma ProtectedPatternsAreAcceptable()
    ensures forall i :: 0 <= i < |ProtectedPatterns| ==> SafeNext.Acceptable(ProtectedPatterns[i])
  {
    assert "/ideas/:id/edit"[1] != 'l' && "/ideas/:id/edit"[1] != 'r' && "/ideas/:id/edit"[1] != '/';
    assert "/ideas/new"[1] != 'l' && "/ideas/new"[1] != 'r' && "/ideas/new"[1] != '/';
    assert "/me"[1] != 'l' && "/me"[1] != 'r' && "/me"[1] != '/';
    assert "/company"[1] != 'l' && "/company"[1] != 'r' && "/company"[1] != '/';
    assert "/notifications"[1] != 'l' && "/notifications"[1] != 'r' && "/notifications"[1] != '/';
    assert "/admin/users"[1] != 'l' && "/admin/users"[1] != 'r' && "/admin/users"[1] != '/';
  }
}
