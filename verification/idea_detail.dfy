/** The idea page (src/pages/IdeaDetailPage.tsx): loading the idea and its comments,
    posting a comment, the like, bookmark and interest toggles, and the owner check.

    Each request's reply is an input; a request that fails rejects the handler's promise,
    and only `load` catches it. */
module IdeaDetail {
  import opened Wrappers
  import opened Strings
  import opened Errors
  import opened Api
  import opened Effects
  import opened Session
  import opened Url
  import EditIdea
  import Navbar

  /** The counters of `idea.stats`; each may be missing. */
  datatype Stats = Stats(likeCount: Option<int>, commentCount: Option<int>,
                         bookmarkCount: Option<int>, viewCount: Option<int>)

  /** The counters the page updates from a reply. */
  datatype Counter = LikeCount | CommentCount | BookmarkCount

  const NoStats := Stats(None, None, None, None)

  /** The idea as far as the page's logic uses it: its author's id and its counters. */
  datatype Idea = Idea(title: string, authorId: Option<string>, stats: Option<Stats>)

  function CountOf(s: Stats, c: Counter): Option<int> {
    match c
    case LikeCount => s.likeCount
    case CommentCount => s.commentCount
    case BookmarkCount => s.bookmarkCount
  }

  /** `prev ? { ...prev, stats: { ...prev.stats, <counter>: value } } : prev`: a missing
      idea stays missing; otherwise only that counter changes (missing stats spread as
      nothing). */
  function WithCount(idea: Option<Idea>, c: Counter, value: Option<int>): (r: Option<Idea>)
    ensures idea.None? <==> r.None?
    ensures r.Some? ==>
      && r.value.title == idea.value.title && r.value.authorId == idea.value.authorId
      && r.value.stats.Some? && CountOf(r.value.stats.value, c) == value
      && var before := idea.value.stats.GetOr(NoStats);
         (forall d :: d != c ==> CountOf(r.value.stats.value, d) == CountOf(before, d))
         && r.value.stats.value.viewCount == before.viewCount
  {
    match idea
    case None => None
    case Some(i) =>
      var s := i.stats.GetOr(NoStats);
      var t := match c
        case LikeCount => s.(likeCount := value)
        case CommentCount => s.(commentCount := value)
        case BookmarkCount => s.(bookmarkCount := value);
      Some(i.(stats := Some(t)))
  }

  datatype Comment = Comment(id: string, content: string)

  /** The page's state. A comment entry is `None` when a reply lacked its `comment`. */
  datatype Detail = Detail(idea: Option<Idea>, err: string, loading: bool,
                           comments: seq<Option<Comment>>, commentText: string, busy: bool,
                           liked: bool, bookmarked: bool, interestMsg: string, interested: bool)

  function IdeaPath(id: string): string {
    "/api/ideas/" + id
  }

  /** The reply of GET /api/ideas/:id. */
  datatype IdeaBody = IdeaBody(idea: Option<Idea>, liked: Option<bool>, bookmarked: Option<bool>)

  /** `load()`: on success the idea is replaced (missing when the reply has none) and the
      two flags become `!!liked` and `!!bookmarked`; on failure the error's message is
      shown, unconverted. `loading` ends false. */
  function Load(d: Detail, id: string, reply: Reply<IdeaBody>): (r: (Detail, seq<Effect>))
    ensures r.1 == [Call(GET, IdeaPath(id), [], [])] && !r.0.loading
    ensures r.0.comments == d.comments && r.0.commentText == d.commentText
    ensures Receive(reply).Success? ==>
      var b := Receive(reply).value;
      && r.0.err == []
      && r.0.idea == (if b.Some? then b.value.idea else None)
      && (r.0.liked <==> b.Some? && b.value.liked == Some(true))
      && (r.0.bookmarked <==> b.Some? && b.value.bookmarked == Some(true))
    ensures Receive(reply).Success? ==>
      r.0 == d.(idea := r.0.idea, liked := r.0.liked, bookmarked := r.0.bookmarked, err := "", loading := false)
    ensures Receive(reply).Failure? ==>
      r.0 == d.(err := Receive(reply).error.message.value, loading := false)
  {
    var call := Call(GET, IdeaPath(id), [], []);
    match Receive(reply)
    case Failure(e) => (d.(err := e.message.value, loading := false), [call])
    case Success(b) =>
      var idea := if b.Some? then b.value.idea else None;
      var liked := b.Some? && b.value.liked == Some(true);
      var bookmarked := b.Some? && b.value.bookmarked == Some(true);
      (d.(idea := idea, liked := liked, bookmarked := bookmarked, err := "", loading := false), [call])
  }

  /** For any reply that arrives, the raw message `load` shows is the text `humanizeError`
      would have produced: the two ways of reporting an HTTP failure agree. */
  lemma LoadErrorIsHumanized(d: Detail, id: string, reply: Reply<IdeaBody>)
    requires reply.Reply? && Receive(reply).Failure?
    ensures Load(d, id, reply).0.err == HumanizeError(Receive(reply).error)
  {
    HttpFailureShowsMessage(reply);
  }

  /** A transport failure with an empty reason is where they part: `load` shows nothing. */
  lemma EmptyTransportErrorShowsNothing(d: Detail, id: string)
    ensures Load(d, id, NetworkError("")).0.err == []
    ensures HumanizeError(Receive<IdeaBody>(NetworkError("")).error) == "Server error."
  {
  }

  datatype CommentsBody = CommentsBody(comments: Option<seq<Option<Comment>>>)

  /** `loadComments()`: the list becomes `comments || []`; a failure escapes. */
  function LoadComments(d: Detail, id: string, reply: Reply<CommentsBody>)
    : (r: (Result<Detail, Thrown>, seq<Effect>))
    ensures r.1 == [Call(GET, IdeaPath(id) + "/comments", [], [])]
    ensures Receive(reply).Failure? ==> r.0 == Failure(Receive(reply).error)
    ensures Receive(reply).Success? ==> r.0.Success? && r.0.value == d.(comments := r.0.value.comments)
    ensures Receive(reply).Success? && Receive(reply).value.Some? && Receive(reply).value.value.comments.Some? ==>
      r.0.value.comments == Receive(reply).value.value.comments.value
    ensures Receive(reply).Success? && (Receive(reply).value.None? || Receive(reply).value.value.comments.None?) ==>
      r.0.value.comments == []
  {
    var call := Call(GET, IdeaPath(id) + "/comments", [], []);
    match Receive(reply)
    case Failure(e) => (Failure(e), [call])
    case Success(b) =>
      (Success(d.(comments := if b.Some? && b.value.comments.Some? then b.value.comments.value else [])), [call])
  }

  /** The Post button is disabled while busy or with a blank comment. */
  predicate PostDisabled(d: Detail) {
    d.busy || IsBlank(d.commentText)
  }

  /** The reply of POST /api/ideas/:id/comments. */
  datatype PostedBody = PostedBody(comment: Option<Comment>, commentCount: Option<int>)

  function PostCall(id: string, text: string): Effect {
    Call(POST, IdeaPath(id) + "/comments", [], [("content", Str(text))])
  }

  /** `submitComment()`: a blank comment changes nothing and sends nothing. Otherwise the
      text is posted as typed; once that succeeds the input is cleared, the new comment
      goes first with the earlier ones after it in order, and the idea's comment count
      becomes the reply's. A failure leaves everything but `busy` and escapes. */
  function SubmitComment(d: Detail, id: string, reply: Reply<PostedBody>)
    : (r: (Detail, Option<Thrown>, seq<Effect>))
    ensures IsBlank(d.commentText) ==> r == (d, None, [])
    ensures !IsBlank(d.commentText) ==> r.2 == [PostCall(id, d.commentText)] && !r.0.busy
    ensures !IsBlank(d.commentText) && Receive(reply).Failure? ==>
      r.0 == d.(busy := false) && r.1 == Some(Receive(reply).error)
    ensures !IsBlank(d.commentText) && Receive(reply).Success? ==>
      var b := Receive(reply).value;
      && r.1.None? && r.0.commentText == []
      && |r.0.comments| == |d.comments| + 1 && r.0.comments[1..] == d.comments
      && r.0.comments[0] == (if b.Some? then b.value.comment else None)
      && r.0.idea == WithCount(d.idea, CommentCount, if b.Some? then b.value.commentCount else None)
      && r.0 == d.(comments := r.0.comments, commentText := [], idea := r.0.idea, busy := false)
  {
    if IsBlank(d.commentText) then (d, None, [])
    else
      var call := PostCall(id, d.commentText);
      match Receive(reply)
      case Failure(e) => (d.(busy := false), Some(e), [call])
      case Success(b) =>
        var comment := if b.Some? then b.value.comment else None;
        var count := if b.Some? then b.value.commentCount else None;
        (d.(comments := [comment] + d.comments, commentText := "",
            idea := WithCount(d.idea, CommentCount, count), busy := false), None, [call])
  }

  /** Posting from an enabled button always sends; the comments loaded earlier stay, in
      order, behind the new one. */
  lemma EnabledPostSends(d: Detail, id: string, reply: Reply<PostedBody>)
    requires !PostDisabled(d)
    ensures SubmitComment(d, id, reply).2 != []
    ensures Receive(reply).Success? ==>
      forall k :: 0 <= k < |d.comments| ==> SubmitComment(d, id, reply).0.comments[k + 1] == d.comments[k]
  {
  }

  /** A reaction the page toggles from its reply: the flag and its counter. */
  datatype Reaction = Like | Bookmark

  function ReactionCounter(x: Reaction): Counter {
    match x
    case Like => LikeCount
    case Bookmark => BookmarkCount
  }

  /** The reply of POST /api/ideas/:id/like (or /bookmark): the new flag and count. */
  datatype ToggledBody = ToggledBody(on: Option<bool>, count: Option<int>)

  /** The like and bookmark buttons are disabled for a visitor. */
  predicate ReactionDisabled(user: Option<User>) {
    user.None?
  }

  /** `onToggleLike()` / `onToggleBookmark()`: the flag becomes what the reply says and the
      matching counter the reply's count; the other flag, the other counters and the
      rest of the page are unchanged. A failure changes nothing and escapes. */
  function Toggle(d: Detail, id: string, x: Reaction, reply: Reply<ToggledBody>)
    : (r: (Detail, Option<Thrown>, seq<Effect>))
    ensures r.2 == [Call(POST, IdeaPath(id) + (if x == Like then "/like" else "/bookmark"), [], [])]
    ensures Receive(reply).Failure? ==> r.0 == d && r.1 == Some(Receive(reply).error)
    ensures Receive(reply).Success? ==>
      var b := Receive(reply).value;
      var on := b.Some? && b.value.on == Some(true);
      && r.1.None?
      && (x == Like ==> r.0.liked == on && r.0.bookmarked == d.bookmarked)
      && (x == Bookmark ==> r.0.bookmarked == on && r.0.liked == d.liked)
      && r.0.idea == WithCount(d.idea, ReactionCounter(x), if b.Some? then b.value.count else None)
      && r.0 == d.(liked := r.0.liked, bookmarked := r.0.bookmarked, idea := r.0.idea)
  {
    var call := Call(POST, IdeaPath(id) + (if x == Like then "/like" else "/bookmark"), [], []);
    match Receive(reply)
    case Failure(e) => (d, Some(e), [call])
    case Success(b) =>
      var on := b.Some? && b.value.on == Some(true);
      var count := if b.Some? then b.value.count else None;
      var flagged := if x == Like then d.(liked := on) else d.(bookmarked := on);
      (flagged.(idea := WithCount(d.idea, ReactionCounter(x), count)), None, [call])
  }

  /** A like never touches the bookmark count, and a bookmark never the like count. */
  lemma ReactionsAreIndependent(d: Detail, id: string, reply: Reply<ToggledBody>)
    requires Receive(reply).Success? && d.idea.Some?
    ensures var r := Toggle(d, id, Like, reply).0;
      r.idea.value.stats.value.bookmarkCount == d.idea.value.stats.GetOr(NoStats).bookmarkCount
    ensures var r := Toggle(d, id, Bookmark, reply).0;
      r.idea.value.stats.value.likeCount == d.idea.value.stats.GetOr(NoStats).likeCount
  {
    var r := Toggle(d, id, Like, reply).0;
    assert CountOf(r.idea.value.stats.value, BookmarkCount) == CountOf(d.idea.value.stats.GetOr(NoStats), BookmarkCount);
    var s := Toggle(d, id, Bookmark, reply).0;
    assert CountOf(s.idea.value.stats.value, LikeCount) == CountOf(d.idea.value.stats.GetOr(NoStats), LikeCount);
  }

  /** The reply of POST /api/ideas/:id/interest. */
  datatype InterestBody = InterestBody(interested: Option<bool>)

  /** `onToggleInterest()`: posts the message; `interested` becomes what the reply says. */
  function ToggleInterest(d: Detail, id: string, reply: Reply<InterestBody>)
    : (r: (Detail, Option<Thrown>, seq<Effect>))
    ensures r.2 == [Call(POST, IdeaPath(id) + "/interest", [], [("message", Str(d.interestMsg))])]
    ensures Receive(reply).Failure? ==> r.0 == d && r.1 == Some(Receive(reply).error)
    ensures Receive(reply).Success? ==> r.1.None? && r.0 == d.(interested := r.0.interested)
    ensures Receive(reply).Success? ==>
      (r.0.interested <==> Receive(reply).value.Some? && Receive(reply).value.value.interested == Some(true))
  {
    var call := Call(POST, IdeaPath(id) + "/interest", [], [("message", Str(d.interestMsg))]);
    match Receive(reply)
    case Failure(e) => (d, Some(e), [call])
    case Success(b) =>
      (d.(interested := b.Some? && b.value.interested == Some(true)), None, [call])
  }

  /** The interest panel is shown to company accounts only. */
  predicate ShowsInterest(user: Option<User>) {
    user.Some? && user.value.role == CompanyRole
  }

  /** The reaction buttons are disabled exactly for the visitors the bar offers Login to. */
  lemma ReactionsNeedSignIn(user: Option<User>, loc: Location)
    ensures ReactionDisabled(user) <==> Navbar.NavLink("Login", Navbar.LoginTo(loc)) in Navbar.Links(user, loc)
  {
  }

  /** The interest panel is shown exactly to the users whose bar has the Company link, and
      they can also react. */
  lemma InterestPanelForCompanies(user: Option<User>, loc: Location)
    ensures ShowsInterest(user) <==> Navbar.Plain("Company", "/company") in Navbar.Links(user, loc)
    ensures ShowsInterest(user) ==> !ReactionDisabled(user)
  {
  }

  /** `isOwner`: the author's id and the user's `_id` are both non-empty and equal. */
  predicate IsOwner(idea: Option<Idea>, user: Option<User>) {
    idea.Some? && Truthy(idea.value.authorId) && user.Some? && user.value.id != []
      && idea.value.authorId.value == user.value.id
  }

  /** Whoever this page calls the author may also edit the idea in the editor; the editor
      admits more (admins, and users known only by the untyped `id`). */
  lemma OwnerMayEdit(i: Idea, e: EditIdea.Idea, user: Option<User>)
    requires e.author.Some? && e.author.value.id == i.authorId
    ensures IsOwner(Some(i), user) ==> EditIdea.CanEdit(Some(e), user)
    ensures user.Some? && user.value.id == [] && user.value.altId == i.authorId && Truthy(i.authorId) ==>
      !IsOwner(Some(i), user) && EditIdea.CanEdit(Some(e), user)
  {
  }
}
