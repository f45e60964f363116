/** The observable side effects of the client's operations, in the order they happen.
    An operation returns its trace so that ordering properties ("the token is stored
    before identity is resolved", "nothing is navigated to on failure") can be stated. */
module Effects {
  import opened Url

  /** A JSON value in a request body. */
  datatype Field = Str(s: string) | Bool(b: bool)

  datatype Verb = GET | POST | PUT | DELETE

  datatype Effect =
      /** One `apiFetch` request: method, path, decoded query parameters and the JSON body
          fields in `JSON.stringify` order. */
    | Call(verb: Verb, path: string, query: Query, body: seq<(string, Field)>)
      /** The token store's `setToken` / `clearToken`. */
    | StoreToken(token: string)
    | ClearToken
      /** GET /api/auth/me, sent with the given bearer token. */
    | Whoami(token: string)
      /** In-app navigation through the router (`nav(to)` or `nav(to, { replace: true })`). */
    | Navigate(to: string, replace: bool)
      /** Full-page navigation through `window.location.assign`. */
    | Assign(url: Target)

  /** The trace contains an in-app navigation. */
  predicate Navigates(trace: seq<Effect>) {
    exists i :: 0 <= i < |trace| && trace[i].Navigate?
  }
}
