/** The admin user list (src/pages/AdminUsersPage.tsx): who sees it, the search request
    it sends, and how a confirmed delete updates the list. */
module AdminUsers {
  import opened Wrappers
  import opened Strings
  import opened Url
  import opened Errors
  import opened Api
  import opened Effects
  import opened Session

  /** One row of the list. */
  datatype Row = Row(id: string, username: string, email: Option<string>, role: Role)

  predicate IsAdmin(user: Option<User>) {
    user.Some? && user.value.role == AdminRole
  }

  /** What the page renders instead of, or as, the panel. */
  datatype Gate = PleaseLogin | AdminOnly | Panel

  /** "Please login." without a user, "Admin only." for anyone but an admin, else the panel. */
  function View(user: Option<User>): (r: Gate)
    ensures r == PleaseLogin <==> user.None?
    ensures r == AdminOnly <==> user.Some? && !IsAdmin(user)
    ensures r == Panel <==> IsAdmin(user)
  {
    if user.None? then PleaseLogin else if !IsAdmin(user) then AdminOnly else Panel
  }

  /** The query of GET /api/admin/users: the trimmed search text as `q` when it is not
      blank, then page 1 and a page size of 30. */
  function SearchQuery(q: string): (r: Query)
    ensures Get(r, "q") == if IsBlank(q) then None else Some(Trim(q))
    ensures Get(r, "page") == Some("1") && Get(r, "limit") == Some("30")
    ensures |r| == if IsBlank(q) then 2 else 3
  {
    var tail: Query := [("page", "1"), ("limit", "30")];
    assert Get(tail, "limit") == Get(tail[1..], "limit");
    if IsBlank(q) then tail
    else
      var r := [("q", Trim(q))] + tail;
      assert r[1..] == tail;
      r
  }

  /** The page's list state. */
  datatype Page = Page(items: seq<Row>, loading: bool)

  datatype ListBody = ListBody(items: Option<seq<Row>>)

  /** `load()`: nothing at all unless the user is an admin. Otherwise one search request;
      its rows (or none, when absent) replace the list, and a failure leaves the list and
      shows its error as a toast. `loading` ends false. */
  function Load(p: Page, user: Option<User>, q: string, reply: Reply<ListBody>)
    : (r: (Page, Option<string>, seq<Effect>))
    ensures !IsAdmin(user) ==> r == (p, None, [])
    ensures IsAdmin(user) ==> r.2 == [Call(GET, "/api/admin/users", SearchQuery(q), [])] && !r.0.loading
    ensures IsAdmin(user) && Receive(reply).Failure? ==>
      r.0.items == p.items && r.1 == Some(HumanizeError(Receive(reply).error))
    ensures IsAdmin(user) && Receive(reply).Success? ==>
      r.1.None? &&
      r.0.items == (if Receive(reply).value.Some? then Receive(reply).value.value.items.GetOr([]) else [])
  {
    if !IsAdmin(user) then (p, None, [])
    else
      var call := Call(GET, "/api/admin/users", SearchQuery(q), []);
      match Receive(reply)
      case Failure(e) => (p.(loading := false), Some(HumanizeError(e)), [call])
      case Success(b) =>
        (Page(if b.Some? then b.value.items.GetOr([]) else [], false), None, [call])
  }

  /** `prev.filter(x => x._id !== id)`. */
  function RemoveId(items: seq<Row>, id: string): (r: seq<Row>)
    ensures forall x :: x in r <==> x in items && x.id != id
    ensures |r| <= |items|
  {
    if items == [] then []
    else if items[0].id == id then RemoveId(items[1..], id)
    else [items[0]] + RemoveId(items[1..], id)
  }

  /** Filtering distributes over concatenation, so the kept rows stay in their order. */
  lemma {:induction false} RemoveIdAppend(a: seq<Row>, b: seq<Row>, id: string)
    ensures RemoveId(a + b, id) == RemoveId(a, id) + RemoveId(b, id)
  {
    if a == [] {
      assert a + b == b;
    } else {
      assert (a + b)[1..] == a[1..] + b;
      RemoveIdAppend(a[1..], b, id);
    }
  }

  /** A list with no row of that id is left exactly as it was. */
  lemma {:induction false} RemoveAbsentId(items: seq<Row>, id: string)
    requires forall k :: 0 <= k < |items| ==> items[k].id != id
    ensures RemoveId(items, id) == items
  {
    if items != [] {
      RemoveAbsentId(items[1..], id);
    }
  }

  /** Row ids are distinct. */
  predicate DistinctIds(items: seq<Row>) {
    forall j, k :: 0 <= j < k < |items| ==> items[j].id != items[k].id
  }

  /** With distinct ids, deleting a listed row removes that row alone: the rows before it
      and after it are kept, in order. */
  lemma RemoveListedRow(items: seq<Row>, k: nat)
    requires DistinctIds(items) && k < |items|
    ensures RemoveId(items, items[k].id) == items[..k] + items[k + 1..]
    ensures |RemoveId(items, items[k].id)| == |items| - 1
  {
    var id := items[k].id;
    assert items == items[..k] + ([items[k]] + items[k + 1..]);
    RemoveIdAppend(items[..k], [items[k]] + items[k + 1..], id);
    RemoveIdAppend([items[k]], items[k + 1..], id);
    RemoveAbsentId(items[..k], id);
    RemoveAbsentId(items[k + 1..], id);
    assert RemoveId([items[k]], id) == [];
  }

  /** Delete is disabled on rows whose role is admin. */
  predicate DeleteDisabled(row: Row) {
    row.role == AdminRole
  }

  /** Deleting through an enabled button never removes an admin's row: with distinct ids,
      every admin row of the list is still there afterwards. */
  lemma EnabledDeleteKeepsAdmins(items: seq<Row>, u: Row, confirmed: bool, reply: Reply<()>)
    requires DistinctIds(items) && u in items && !DeleteDisabled(u)
    ensures forall x :: x in items && DeleteDisabled(x) ==> x in DeleteUser(items, u, confirmed, reply).0
  {
    forall x | x in items && DeleteDisabled(x)
      ensures x in DeleteUser(items, u, confirmed, reply).0
    {
      var j :| 0 <= j < |items| && items[j] == x;
      var k :| 0 <= k < |items| && items[k] == u;
      assert j != k;
      assert x.id != u.id by {
        if j < k {} else {}
      }
    }
  }

  /** `del(u)`: a declined confirmation changes nothing and sends nothing. Otherwise one
      DELETE; once it succeeds every row with that id leaves the list, and a failure
      leaves the list and shows its error. */
  function DeleteUser(items: seq<Row>, u: Row, confirmed: bool, reply: Reply<()>)
    : (r: (seq<Row>, Option<string>, seq<Effect>))
    ensures !confirmed ==> r == (items, None, [])
    ensures confirmed ==> r.2 == [Call(DELETE, "/api/admin/users/" + u.id, [], [])]
    ensures confirmed && Receive(reply).Failure? ==>
      r.0 == items && r.1 == Some(HumanizeError(Receive(reply).error))
    ensures confirmed && Receive(reply).Success? ==>
      r.0 == RemoveId(items, u.id) && r.1 == Some("User deleted")
  {
    if !confirmed then (items, None, [])
    else
      var call := Call(DELETE, "/api/admin/users/" + u.id, [], []);
      match Receive(reply)
      case Failure(e) => (items, Some(HumanizeError(e)), [call])
      case Success(_) => (RemoveId(items, u.id), Some("User deleted"), [call])
  }
}
