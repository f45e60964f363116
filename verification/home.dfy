/** The public idea list (src/pages/HomePage.tsx): how it reads sort, keyword, tag and page
    from the address bar, the request it sends, and how its Apply, sort and paging
    buttons rewrite the address bar's query. */
module Home {
  import opened Wrappers
  import opened Strings
  import opened Url
  import opened Errors
  import opened Api
  import opened Effects

  /** `params.get("sort") || "new"`, and the same for keyword and tag with "". */
  function SortOf(q: Query): string {
    OrElse(Get(q, "sort"), "new")
  }

  function KeywordOf(q: Query): string {
    OrElse(Get(q, "keyword"), "")
  }

  function TagOf(q: Query): string {
    OrElse(Get(q, "tag"), "")
  }

  /** `Math.max(x, 1)`: NaN stays NaN. */
  function AtLeastOne(x: Number): (r: Number)
    ensures x.NaN? <==> r.NaN?
    ensures x.Int? ==> r.i >= 1 && (r.i == x.i || (x.i < 1 && r.i == 1))
  {
    match x
    case NaN => NaN
    case Int(i) => Int(if i < 1 then 1 else i)
  }

  /** `x + d` on a number; NaN absorbs. */
  function Plus(x: Number, d: int): Number {
    match x
    case NaN => NaN
    case Int(i) => Int(i + d)
  }

  /** `Math.max(parseInt(params.get("page") || "1", 10), 1)`. */
  function PageOf(q: Query): (r: Number)
    ensures r.Int? ==> r.i >= 1
    ensures !Truthy(Get(q, "page")) ==> r == Int(1)
    ensures Truthy(Get(q, "page")) ==> r == AtLeastOne(ParseInt(Get(q, "page").value))
  {
    var raw := OrElse(Get(q, "page"), "1");
    if !Truthy(Get(q, "page")) then
      assert ParseInt("1") == Int(1) by { ParseIntRoundTrip(1); assert IntToString(1) == "1"; }
      AtLeastOne(ParseInt(raw))
    else
      AtLeastOne(ParseInt(raw))
  }

  /** A page number read from "n" for a positive integer n is n itself. */
  lemma {:induction false} ReadPage(q: Query, n: int)
    requires n >= 1 && Get(q, "page") == Some(IntToString(n))
    ensures PageOf(q) == Int(n)
  {
    ParseIntRoundTrip(n);
  }

  /** The query string of GET /api/ideas: the five parameters sort, keyword, tag, page
      and limit, in that order. */
  function RequestQuery(q: Query): (r: Query)
    ensures Names(r) == ["sort", "keyword", "tag", "page", "limit"]
  {
    [("sort", SortOf(q)), ("keyword", KeywordOf(q)), ("tag", TagOf(q)),
     ("page", NumberToString(PageOf(q))), ("limit", "10")]
  }

  /** What each parameter of the request says: the address bar's sort, filters and page,
      and a page size of ten. */
  lemma {:induction false} RequestQueryReads(q: Query)
    ensures var r := RequestQuery(q);
      && Get(r, "sort") == Some(SortOf(q)) && Get(r, "keyword") == Some(KeywordOf(q))
      && Get(r, "tag") == Some(TagOf(q)) && Get(r, "page") == Some(NumberToString(PageOf(q)))
      && Get(r, "limit") == Some("10")
  {
    var r := RequestQuery(q);
    GetHead(r, "tag");
    GetHead(r[1..], "tag");
    GetHead(r, "page");
    GetHead(r[1..], "page");
    GetHead(r[2..], "page");
    GetHead(r, "limit");
    GetHead(r[1..], "limit");
    GetHead(r[2..], "limit");
    GetHead(r[3..], "limit");
    assert r[1..][1..] == r[2..] && r[2..][1..] == r[3..] && r[3..][1..] == r[4..];
  }

  lemma GetHead(q: Query, name: string)
    requires q != []
    ensures Get(q, name) == if q[0].0 == name then Some(q[0].1) else Get(q[1..], name)
  {
  }

  /** The names of a query, in order. */
  function Names(q: Query): (r: seq<string>)
    ensures |r| == |q| && forall i :: 0 <= i < |q| ==> r[i] == q[i].0
  {
    if q == [] then [] else [q[0].0] + Names(q[1..])
  }

  /** The server reads back from the request the page the address bar shows. */
  lemma RequestCarriesPage(q: Query)
    ensures Get(RequestQuery(q), "page").Some?
    ensures ParseInt(Get(RequestQuery(q), "page").value) == PageOf(q)
  {
    RequestQueryReads(q);
    NumberRoundTrip(PageOf(q));
  }

  /** The trimmed input, or nothing when it is blank. */
  function Trimmed(input: string): (r: Option<string>)
    ensures r.Some? ==> r.value != [] && r.value == Trim(input)
    ensures r.None? ==> Trim(input) == []
  {
    if IsBlank(input) then None else Some(Trim(input))
  }

  /** `value.trim() ? next.set(name, value.trim()) : next.delete(name)`. */
  function SetOrDelete(q: Query, name: string, input: string): (r: Query)
    ensures Get(r, name) == Trimmed(input)
    ensures forall other :: other != name ==> Get(r, other) == Get(q, other)
    ensures Delete(r, name) == Delete(q, name)
  {
    match Trimmed(input)
    case None =>
      DeleteKeepsOthers(q, name);
      DeleteIdempotent(q, name);
      Delete(q, name)
    case Some(t) =>
      SetKeepsOthers(q, name, t);
      Set(q, name, t)
  }

  /** The Apply button: page back to "1", keyword and tag set to their trimmed inputs or
      removed when blank; every other parameter keeps its value. */
  function Apply(q: Query, keywordInput: string, tagInput: string): (r: Query)
    ensures Get(r, "page") == Some("1")
    ensures Get(r, "keyword") == Trimmed(keywordInput)
    ensures Get(r, "tag") == Trimmed(tagInput)
    ensures forall other :: other != "page" && other != "keyword" && other != "tag" ==> Get(r, other) == Get(q, other)
  {
    NamesDiffer();
    SetKeepsOthers(q, "page", "1");
    var p := Set(q, "page", "1");
    var k := SetOrDelete(p, "keyword", keywordInput);
    var t := SetOrDelete(k, "tag", tagInput);
    assert Get(k, "page") == Get(p, "page");
    assert Get(t, "page") == Get(k, "page");
    assert Get(t, "keyword") == Get(k, "keyword");
    t
  }

  /** The pairs of every parameter other than "page", "keyword" and "tag", duplicates and
      order included. */
  function OtherPairs(q: Query): Query {
    Delete(Delete(Delete(q, "page"), "keyword"), "tag")
  }

  /** Apply leaves every pair of every other parameter exactly where it was, including
      repeated names that `get` would not see. */
  lemma ApplyKeepsOtherPairs(q: Query, keywordInput: string, tagInput: string)
    ensures OtherPairs(Apply(q, keywordInput, tagInput)) == OtherPairs(q)
  {
    var p := Set(q, "page", "1");
    var k := SetOrDelete(p, "keyword", keywordInput);
    var t := SetOrDelete(k, "tag", tagInput);
    assert Apply(q, keywordInput, tagInput) == t;
    // Move the name each step rewrites to the inside, where the step's frame applies.
    DeleteCommutes(Delete(t, "page"), "keyword", "tag");
    DeleteCommutes(t, "page", "tag");
    DeleteCommutes(k, "page", "tag");
    DeleteCommutes(Delete(k, "page"), "keyword", "tag");
    DeleteCommutes(k, "page", "keyword");
    DeleteCommutes(p, "page", "keyword");
  }

  /** The parameter names the page uses are distinct. */
  lemma NamesDiffer()
    ensures "sort" != "page" && "keyword" != "page" && "tag" != "page"
    ensures "sort" != "keyword" && "sort" != "tag" && "keyword" != "tag"
  {
    assert "sort"[0] != "page"[0] && "sort"[0] != "tag"[0];
    assert |"keyword"| != |"page"| && |"keyword"| != |"sort"| && |"keyword"| != |"tag"|;
    assert |"tag"| != |"page"|;
  }

  /** After Apply the page reads as 1 and the filters read as the trimmed inputs; the
      sort is kept. */
  lemma ApplyThenRead(q: Query, keywordInput: string, tagInput: string)
    ensures var r := Apply(q, keywordInput, tagInput);
      && PageOf(r) == Int(1)
      && KeywordOf(r) == Trim(keywordInput)
      && TagOf(r) == Trim(tagInput)
      && SortOf(r) == SortOf(q)
  {
    var r := Apply(q, keywordInput, tagInput);
    NamesDiffer();
    assert Get(r, "sort") == Get(q, "sort");
    ReadFirstPage(r);
  }

  /** A query whose page is "1" reads as page 1. */
  lemma ReadFirstPage(q: Query)
    requires Get(q, "page") == Some("1")
    ensures PageOf(q) == Int(1)
  {
    assert IntToString(1) == "1";
    ReadPage(q, 1);
  }

  /** The sort buttons replace every parameter by the chosen sort alone. */
  function SortParams(sort: string): (r: Query)
    ensures Get(r, "sort") == Some(sort)
    ensures forall other :: other != "sort" ==> Get(r, other) == None
  {
    [("sort", sort)]
  }

  /** A sort button starts again at page 1 with no filters. */
  lemma SortResetsFilters(q: Query, sort: string)
    requires sort == "new" || sort == "hot"
    ensures SortOf(SortParams(sort)) == sort && PageOf(SortParams(sort)) == Int(1)
    ensures KeywordOf(SortParams(sort)) == [] && TagOf(SortParams(sort)) == []
  {
  }

  /** Prev is disabled when `page <= 1`; a NaN page compares false, so Prev stays enabled. */
  predicate PrevDisabled(page: Number) {
    page.Int? && page.i <= 1
  }

  /** Next is disabled when `page >= totalPages`; a NaN page compares false. */
  predicate NextDisabled(page: Number, totalPages: int) {
    page.Int? && page.i >= totalPages
  }

  /** Prev and Next: `page` set to the string of the page one lower or higher; every other
      parameter keeps its value. */
  function Step(q: Query, delta: int): (r: Query)
    ensures Get(r, "page") == Some(NumberToString(Plus(PageOf(q), delta)))
    ensures forall other :: other != "page" ==> Get(r, other) == Get(q, other)
    ensures Delete(r, "page") == Delete(q, "page")
  {
    SetKeepsOthers(q, "page", NumberToString(Plus(PageOf(q), delta)));
    Set(q, "page", NumberToString(Plus(PageOf(q), delta)))
  }

  function Prev(q: Query): Query {
    Step(q, -1)
  }

  function Next(q: Query): Query {
    Step(q, 1)
  }

  /** On an integer page, a step that stays at or above 1 lands exactly `delta` pages on. */
  lemma StepThenRead(q: Query, delta: int)
    requires PageOf(q).Int? && PageOf(q).i + delta >= 1
    ensures PageOf(Step(q, delta)) == Int(PageOf(q).i + delta)
  {
    var n := PageOf(q).i + delta;
    var r := Step(q, delta);
    assert Plus(PageOf(q), delta) == Int(n);
    assert Get(r, "page") == Some(IntToString(n));
    ReadPage(r, n);
  }

  /** While Prev is enabled on an integer page, it moves exactly one page back. */
  lemma PrevThenRead(q: Query)
    requires PageOf(q).Int? && !PrevDisabled(PageOf(q))
    ensures PageOf(Prev(q)) == Int(PageOf(q).i - 1)
  {
    StepThenRead(q, -1);
  }

  /** On an integer page, Next moves exactly one page forward. */
  lemma NextThenRead(q: Query)
    requires PageOf(q).Int?
    ensures PageOf(Next(q)) == Int(PageOf(q).i + 1)
  {
    StepThenRead(q, 1);
  }

  /** Paging keeps the sort and the filters. */
  lemma PagingKeepsFilters(q: Query, delta: int)
    ensures SortOf(Step(q, delta)) == SortOf(q)
    ensures KeywordOf(Step(q, delta)) == KeywordOf(q)
    ensures TagOf(Step(q, delta)) == TagOf(q)
  {
    NamesDiffer();
    var r := Step(q, delta);
    assert Get(r, "sort") == Get(q, "sort");
    assert Get(r, "keyword") == Get(q, "keyword");
    assert Get(r, "tag") == Get(q, "tag");
  }

  /** Once the page reads as NaN, both paging buttons stay enabled and both write "NaN"
      back, which reads as NaN again: paging never brings the address bar back to a number. */
  lemma NaNPageIsSticky(q: Query, totalPages: int)
    requires PageOf(q).NaN?
    ensures !PrevDisabled(PageOf(q)) && !NextDisabled(PageOf(q), totalPages)
    ensures Get(Next(q), "page") == Some("NaN") && Get(Prev(q), "page") == Some("NaN")
    ensures PageOf(Next(q)).NaN? && PageOf(Prev(q)).NaN?
  {
    NumberRoundTrip(NaN);
  }

  /** A page parameter with no leading digit, such as "x", reads as NaN. */
  lemma NonNumericPage()
    ensures PageOf([("page", "x")]).NaN?
  {
    var q: Query := [("page", "x")];
    assert Get(q, "page") == Some("x");
    assert ParseInt("x") == NaN by {
      assert Lead("x", 0) == 0 && "x"[0..] == "x" && DigitPrefix("x") == [];
    }
  }

  /** One idea of the list, as far as the page uses it. */
  datatype Idea = Idea(id: string, title: string)

  datatype ListBody = ListBody(ideas: Option<seq<Idea>>, totalPages: Option<int>)

  /** The page's list state. */
  datatype View = View(ideas: seq<Idea>, totalPages: int, err: string, loading: bool)

  /** `load()`: one GET /api/ideas with the request query; on success the ideas (or []
      when absent) and the page count (or 1 when absent or zero) replace the old ones; on
      failure they stay and the error is shown. `loading` ends false. */
  function Load(v: View, q: Query, reply: Reply<ListBody>): (r: (View, seq<Effect>))
    ensures r.1 == [Call(GET, "/api/ideas", RequestQuery(q), [])]
    ensures !r.0.loading
    ensures Receive(reply).Failure? ==>
      r.0 == v.(err := HumanizeError(Receive(reply).error), loading := false)
    ensures Receive(reply).Success? ==> r.0.err == [] && r.0.totalPages != 0
    ensures Receive(reply).Success? && Receive(reply).value.Some? ==>
      var b := Receive(reply).value.value;
      && r.0.ideas == b.ideas.GetOr([])
      && r.0.totalPages == (if b.totalPages.Some? && b.totalPages.value != 0 then b.totalPages.value else 1)
    ensures Receive(reply).Success? && Receive(reply).value.None? ==> r.0.ideas == [] && r.0.totalPages == 1
  {
    var call := Call(GET, "/api/ideas", RequestQuery(q), []);
    match Receive(reply)
    case Failure(e) => (v.(err := HumanizeError(e), loading := false), [call])
    case Success(body) =>
      var ideas := if body.Some? && body.value.ideas.Some? then body.value.ideas.value else [];
      var pages := if body.Some? && body.value.totalPages.Some? && body.value.totalPages.value != 0
                   then body.value.totalPages.value else 1;
      (View(ideas, pages, "", false), [call])
  }
}
