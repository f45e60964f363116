/** Sanitising a post-login redirect target ("next").

    There are two versions in the client: the shared `safeNext` (src/utils/safeNext.ts),
    which also refuses the login and register pages, and a private copy in the OAuth
    callback page (src/pages/OAuthCallbackPage.tsx) that does not.
 */
module SafeNext {
  import opened Wrappers
  import opened Strings

  const Root := "/"

  /** A target the shared sanitiser accepts as it is: an in-site absolute path that is
      not protocol-relative and does not begin with an authentication page. The tests are
      prefix tests, so "/login-help" and "/registered" are refused too. */
  predicate Acceptable(next: string) {
    && StartsWith(next, "/")
    && !StartsWith(next, "//")
    && !StartsWith(next, "/login")
    && !StartsWith(next, "/register")
  }

  /** A target the callback page's copy accepts: in-site and not protocol-relative. */
  predicate InSite(next: string) {
    StartsWith(next, "/") && !StartsWith(next, "//")
  }

  /** `safeNext(next)` of src/utils/safeNext.ts. */
  function SafeNext(next: Option<string>): (r: string)
    ensures StartsWith(r, "/") && !StartsWith(r, "//")
    ensures !StartsWith(r, "/login") && !StartsWith(r, "/register")
    ensures r == Root || next == Some(r)
    ensures next.Some? && Acceptable(next.value) ==> r == next.value
    ensures (next.None? || !Acceptable(next.value)) ==> r == Root
  {
    if !Truthy(next) then Root
    else if !StartsWith(next.value, "/") then Root
    else if StartsWith(next.value, "//") then Root
    else if StartsWith(next.value, "/login") then Root
    else if StartsWith(next.value, "/register") then Root
    else next.value
  }

  /** The private `safeNext` of src/pages/OAuthCallbackPage.tsx. */
  function CallbackSafeNext(next: Option<string>): (r: string)
    ensures StartsWith(r, "/") && !StartsWith(r, "//")
    ensures r == Root || next == Some(r)
    ensures next.Some? && InSite(next.value) ==> r == next.value
    ensures (next.None? || !InSite(next.value)) ==> r == Root
  {
    if !Truthy(next) then Root
    else if !StartsWith(next.value, "/") then Root
    else if StartsWith(next.value, "//") then Root
    else next.value
  }

  /** Sanitising a sanitised target changes nothing. */
  lemma SafeNextIdempotent(next: Option<string>)
    ensures SafeNext(Some(SafeNext(next))) == SafeNext(next)
  {
    if SafeNext(next) == Root {
      assert Acceptable(Root);
    }
  }

  /** The same holds for the callback page's copy. */
  lemma CallbackSafeNextIdempotent(next: Option<string>)
    ensures CallbackSafeNext(Some(CallbackSafeNext(next))) == CallbackSafeNext(next)
  {
    if CallbackSafeNext(next) == Root {
      assert InSite(Root);
    }
  }

  /** The shared sanitiser is the stricter one: whatever it lets through, the callback's
      copy lets through unchanged, and the two differ exactly on in-site targets that
      begin with "/login" or "/register". */
  lemma SharedIsStricter(next: Option<string>)
    ensures SafeNext(next) != Root ==> CallbackSafeNext(next) == SafeNext(next)
    ensures CallbackSafeNext(next) != SafeNext(next) <==>
      next.Some? && InSite(next.value) && next.value != Root
      && (StartsWith(next.value, "/login") || StartsWith(next.value, "/register"))
  {
  }

  /** The login page is refused by the shared sanitiser and kept by the callback's copy. */
  lemma LoginPageContrast()
    ensures SafeNext(Some("/login")) == Root
    ensures CallbackSafeNext(Some("/login")) == "/login"
    ensures SafeNext(Some("/registered")) == Root
    ensures SafeNext(Some("/ideas/42")) == "/ideas/42"
    ensures SafeNext(Some("//evil.com")) == Root
    ensures SafeNext(Some("/login?x=1")) == Root
  {
    assert "/login"[1] != '/';
  }
}
