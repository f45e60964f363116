/** Locations and query strings, kept in decoded form.

    The client builds links such as "/login?next=" + encodeURIComponent(x) and reads
    parameters back with `new URLSearchParams(loc.search).get(name)`. Percent-encoding
    and parsing are browser code and are not modelled: a query is the list of decoded
    name/value pairs that `URLSearchParams` holds, so the link above is
    `Target("/login", [("next", x)])`.
 */
module Url {
  import opened Wrappers

  /** Decoded query parameters, in order; a name may occur more than once. */
  type Query = seq<(string, string)>

  /** Where the router currently is: `pathname`, the raw `search` text ("" or "?...")
      and the parameters `URLSearchParams` decodes from that text. */
  datatype Location = Location(pathname: string, search: string, query: Query)

  /** A navigation target: a path with a decoded query. */
  datatype Target = Target(path: string, query: Query)

  /** `${loc.pathname}${loc.search || ""}`: the path and query the user is on. */
  function PathAndSearch(loc: Location): string {
    loc.pathname + loc.search
  }

  /** `path + "?next=" + encodeURIComponent(next)`. */
  function WithNext(path: string, next: string): Target {
    Target(path, [("next", next)])
  }

  /** `params.get(name)`: the value of the first pair with that name, if any. */
  function Get(q: Query, name: string): Option<string> {
    if q == [] then None
    else if q[0].0 == name then Some(q[0].1)
    else Get(q[1..], name)
  }

  /** `get` finds a value exactly when some pair has the name, and the value it finds
      is paired with that name. */
  lemma {:induction false} GetFinds(q: Query, name: string)
    ensures Get(q, name).Some? <==> exists i :: 0 <= i < |q| && q[i].0 == name
    ensures Get(q, name).Some? ==> (name, Get(q, name).value) in q
  {
    if q != [] && q[0].0 != name {
      GetFinds(q[1..], name);
      assert forall i :: 1 <= i < |q| ==> q[i] == q[1..][i - 1];
      if Get(q, name).Some? {
        var i :| 0 <= i < |q[1..]| && q[1..][i].0 == name;
        assert q[i + 1].0 == name;
      }
    }
  }

  /** `params.delete(name)`: every pair with that name is removed. */
  function Delete(q: Query, name: string): (r: Query)
    ensures Get(r, name) == None
    ensures |r| <= |q|
  {
    if q == [] then []
    else if q[0].0 == name then Delete(q[1..], name)
    else [q[0]] + Delete(q[1..], name)
  }

  /** `delete` keeps exactly the pairs with other names. */
  lemma {:induction false} DeleteKeeps(q: Query, name: string)
    ensures forall p :: p in Delete(q, name) <==> p in q && p.0 != name
  {
    if q != [] {
      DeleteKeeps(q[1..], name);
      assert forall p :: p in q <==> p == q[0] || p in q[1..] by {
        assert q == [q[0]] + q[1..];
      }
    }
  }

  /** `params.set(name, value)`: the first pair with that name gets the value and the
      others with that name are removed; with no such pair, one is appended. Pairs with
      other names are untouched, in order. */
  function Set(q: Query, name: string, value: string): (r: Query)
    ensures Get(r, name) == Some(value)
    ensures Delete(r, name) == Delete(q, name)
    ensures |r| == |Delete(q, name)| + 1
  {
    if Get(q, name).None? then
      DeleteAbsent(q, name);
      DeleteAppend(q, (name, value), name);
      GetAppendAbsent(q, name, value);
      q + [(name, value)]
    else
      SetFirst(q, name, value)
  }

  function SetFirst(q: Query, name: string, value: string): (r: Query)
    requires Get(q, name).Some?
    ensures Get(r, name) == Some(value)
    ensures Delete(r, name) == Delete(q, name)
    ensures |r| == |Delete(q, name)| + 1
  {
    if q[0].0 == name then
      DeleteIdempotent(q[1..], name);
      [(name, value)] + Delete(q[1..], name)
    else
      [q[0]] + SetFirst(q[1..], name, value)
  }

  lemma {:induction false} DeleteAbsent(q: Query, name: string)
    requires Get(q, name).None?
    ensures Delete(q, name) == q
  {
    if q != [] {
      DeleteAbsent(q[1..], name);
    }
  }

  lemma {:induction false} DeleteIdempotent(q: Query, name: string)
    ensures Delete(Delete(q, name), name) == Delete(q, name)
  {
    DeleteAbsent(Delete(q, name), name);
  }

  /** Deleting two names gives the same pairs in either order. */
  lemma {:induction false} DeleteCommutes(q: Query, a: string, b: string)
    ensures Delete(Delete(q, a), b) == Delete(Delete(q, b), a)
  {
    if q != [] {
      DeleteCommutes(q[1..], a, b);
      if q[0].0 != a && q[0].0 != b {
        assert ([q[0]] + Delete(q[1..], a))[1..] == Delete(q[1..], a);
        assert ([q[0]] + Delete(q[1..], b))[1..] == Delete(q[1..], b);
      } else if q[0].0 != a {
        assert ([q[0]] + Delete(q[1..], a))[1..] == Delete(q[1..], a);
      } else if q[0].0 != b {
        assert ([q[0]] + Delete(q[1..], b))[1..] == Delete(q[1..], b);
      }
    }
  }

  lemma {:induction false} DeleteAppend(q: Query, p: (string, string), name: string)
    ensures Delete(q + [p], name) == Delete(q, name) + Delete([p], name)
  {
    if q != [] {
      assert (q + [p])[1..] == q[1..] + [p];
      DeleteAppend(q[1..], p, name);
    }
  }

  lemma {:induction false} GetAppendAbsent(q: Query, name: string, value: string)
    requires Get(q, name).None?
    ensures Get(q + [(name, value)], name) == Some(value)
  {
    if q != [] {
      assert (q + [(name, value)])[1..] == q[1..] + [(name, value)];
      GetAppendAbsent(q[1..], name, value);
    }
  }

  /** Removing one name does not change what `get` returns for another. */
  lemma {:induction false} GetDeleteOther(q: Query, name: string, other: string)
    requires other != name
    ensures Get(Delete(q, name), other) == Get(q, other)
  {
    if q != [] {
      GetDeleteOther(q[1..], name, other);
    }
  }

  /** `set` changes what `get` returns for its own name only. */
  lemma GetSetOther(q: Query, name: string, value: string, other: string)
    requires other != name
    ensures Get(Set(q, name, value), other) == Get(q, other)
  {
    GetDeleteOther(Set(q, name, value), name, other);
    GetDeleteOther(q, name, other);
  }

  /** `set` and `delete` leave every other name's value as it was. */
  lemma SetKeepsOthers(q: Query, name: string, value: string)
    ensures forall other :: other != name ==> Get(Set(q, name, value), other) == Get(q, other)
  {
    forall other | other != name
      ensures Get(Set(q, name, value), other) == Get(q, other)
    {
      GetSetOther(q, name, value, other);
    }
  }

  lemma DeleteKeepsOthers(q: Query, name: string)
    ensures forall other :: other != name ==> Get(Delete(q, name), other) == Get(q, other)
  {
    forall other | other != name
      ensures Get(Delete(q, name), other) == Get(q, other)
    {
      GetDeleteOther(q, name, other);
    }
  }
}
