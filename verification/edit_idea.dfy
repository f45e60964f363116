/** The idea editor (src/pages/EditIdeaPage.tsx): who may edit, how the form is filled
    from the loaded idea, and the guards `onSave` applies before it sends anything. */
module EditIdea {
  import opened Wrappers
  import opened Strings
  import opened Errors
  import opened Api
  import opened Effects
  import opened Session

  /** `user._id || user.id`: the first truthy of the two, if any. */
  function UserId(user: Option<User>): (r: Option<string>)
    ensures user.None? ==> r.None?
    ensures user.Some? && user.value.id != [] ==> r == Some(user.value.id)
    ensures user.Some? && user.value.id == [] ==> r == user.value.altId
  {
    match user
    case None => None
    case Some(u) => if u.id != [] then Some(u.id) else u.altId
  }

  /** The idea's author as the server populates it. */
  datatype Author = Author(id: Option<string>, username: Option<string>)

  /** An idea as GET /api/ideas/:id returns it; any field may be missing. */
  datatype Idea = Idea(title: Option<string>, summary: Option<string>, content: Option<string>,
                       tags: Option<seq<string>>, visibility: Option<string>,
                       isMonetizable: Option<bool>, licenseType: Option<string>,
                       author: Option<Author>)

  /** The author's id is present and non-empty and equals `userId`. */
  predicate OwnedBy(idea: Idea, userId: string) {
    idea.author.Some? && Truthy(idea.author.value.id) && idea.author.value.id.value == userId
  }

  /** `canEdit`: an idea is loaded, the user has a truthy id, and the user is its author or
      an admin. */
  function CanEdit(idea: Option<Idea>, user: Option<User>): (r: bool)
    ensures r <==>
      && idea.Some? && Truthy(UserId(user))
      && (OwnedBy(idea.value, UserId(user).value) || user.value.role == AdminRole)
  {
    if idea.None? || !Truthy(UserId(user)) then false
    else
      var userId := UserId(user).value;
      var isOwner := idea.value.author.Some? && Truthy(idea.value.author.value.id)
                     && idea.value.author.value.id.value == userId;
      isOwner || (user.Some? && user.value.role == AdminRole)
  }

  /** An author whose id is missing is no one's idea: only an admin may edit it. A visitor
      may edit nothing. */
  lemma OwnerlessIdeaIsAdminOnly(idea: Idea, user: Option<User>)
    requires idea.author.None? || !Truthy(idea.author.value.id)
    ensures CanEdit(Some(idea), user) ==> user.Some? && user.value.role == AdminRole
    ensures CanEdit(Some(idea), None) == false
  {
  }

  /** The editor's fields. */
  datatype Form = Form(title: string, summary: string, content: string, tags: string,
                       visibility: string, isMonetizable: bool, licenseType: string)

  /** The form before anything is loaded. */
  function EmptyForm(): Form {
    Form("", "", "", "", "public", false, "default")
  }

  /** Form initialisation from a loaded idea: missing text becomes "", the tags are joined
      with ", ", a falsy visibility becomes "public", `isMonetizable` is coerced to a
      boolean and a falsy licence becomes "default". */
  function InitForm(i: Idea): (f: Form)
    ensures f.title == OrElse(i.title, "") && f.summary == OrElse(i.summary, "")
    ensures f.content == OrElse(i.content, "")
    ensures i.tags.None? ==> f.tags == []
    ensures i.tags.Some? && |i.tags.value| == 1 ==> f.tags == i.tags.value[0]
    ensures Truthy(i.visibility) ==> f.visibility == i.visibility.value
    ensures !Truthy(i.visibility) ==> f.visibility == "public"
    ensures f.isMonetizable <==> i.isMonetizable == Some(true)
    ensures Truthy(i.licenseType) ==> f.licenseType == i.licenseType.value
    ensures !Truthy(i.licenseType) ==> f.licenseType == "default"
  {
    Form(OrElse(i.title, ""), OrElse(i.summary, ""), OrElse(i.content, ""),
         Join(i.tags.GetOr([]), ", "), OrElse(i.visibility, "public"),
         i.isMonetizable == Some(true), OrElse(i.licenseType, "default"))
  }

  /** Two tags are shown as one comma-separated line. */
  lemma TwoTagsJoined(a: string, b: string)
    ensures Join([a, b], ", ") == a + ", " + b
  {
    JoinAppend([a], b, ", ");
    assert [a] + [b] == [a, b];
  }

  /** The page: the loaded idea, the form, and the two progress flags. */
  datatype Page = Page(idea: Option<Idea>, form: Form, loading: bool, saving: bool)

  /** The body of GET /api/ideas/:id. */
  datatype IdeaBody = IdeaBody(idea: Option<Idea>)

  /** V8's `TypeError` text when `res.idea` is `undefined` and its `title` is read. Other
      engines word it differently, and V8 says "of null" for an `idea: null` reply. */
  const MissingIdeaError: Thrown := Error(None, Some("Cannot read properties of undefined (reading 'title')"))

  /** `load()`: with no route id nothing happens. Otherwise one request; a loaded idea
      replaces the idea and fills the form. A failed request changes neither, and a reply
      without an idea clears the idea and leaves the form; both are shown as an error
      toast (`toast`). `loading` ends false. */
  function Load(p: Page, routeId: Option<string>, reply: Reply<IdeaBody>)
    : (r: (Page, Option<string>, seq<Effect>))
    ensures !Truthy(routeId) ==> r == (p, None, [])
    ensures Truthy(routeId) ==> r.2 == [Call(GET, "/api/ideas/" + routeId.value, [], [])] && !r.0.loading
    ensures Truthy(routeId) ==> r.0.saving == p.saving
    ensures Truthy(routeId) && Receive(reply).Failure? ==>
      r.0 == p.(loading := false) && r.1 == Some(HumanizeError(Receive(reply).error))
    ensures Truthy(routeId) && Receive(reply).Success? ==>
      var body := Receive(reply).value;
      if body.Some? && body.value.idea.Some? then
        r.0.idea == body.value.idea && r.0.form == InitForm(body.value.idea.value) && r.1.None?
      else
        r.0.idea.None? && r.0.form == p.form && r.1 == Some(HumanizeError(MissingIdeaError))
  {
    if !Truthy(routeId) then (p, None, [])
    else
      var call := Call(GET, "/api/ideas/" + routeId.value, [], []);
      match Receive(reply)
      case Failure(e) => (p.(loading := false), Some(HumanizeError(e)), [call])
      case Success(body) =>
        if body.Some? && body.value.idea.Some? then
          (p.(idea := body.value.idea, form := InitForm(body.value.idea.value), loading := false), None, [call])
        else
          (p.(idea := None, loading := false), Some(HumanizeError(MissingIdeaError)), [call])
  }

  /** The inputs are disabled while saving or without edit permission. */
  predicate FieldsDisabled(canEdit: bool, saving: bool) {
    !canEdit || saving
  }

  /** The Save button is disabled while saving, without edit permission, or with a blank title. */
  predicate SaveDisabled(saving: bool, canEdit: bool, title: string) {
    saving || !canEdit || IsBlank(title)
  }

  /** A form whose inputs are locked also has its Save button disabled, and when the lock
      comes from missing permission rather than a save in progress, `onSave` sends nothing. */
  lemma LockedFormIsNeverSent(routeId: Option<string>, p: Page, user: Option<User>, reply: Reply<()>)
    requires FieldsDisabled(CanEdit(p.idea, user), p.saving)
    ensures SaveDisabled(p.saving, CanEdit(p.idea, user), p.form.title)
    ensures !p.saving ==> OnSave(routeId, p, user, reply).trace == []
  {
  }

  function SaveCall(id: string, f: Form): Effect {
    Call(PUT, "/api/ideas/" + id, [],
      [("title", Str(f.title)), ("summary", Str(f.summary)), ("content", Str(f.content)),
       ("tags", Str(f.tags)), ("visibility", Str(f.visibility)),
       ("isMonetizable", Bool(f.isMonetizable)), ("licenseType", Str(f.licenseType))])
  }

  /** The outcome of `onSave()`: the toast it shows (if any) and its trace. */
  datatype Saved = Saved(toast: Option<string>, trace: seq<Effect>)

  /** `onSave()`: with no route id, nothing. A blank title is refused with "Title is
      required" before the permission check, and a user who may not edit is refused with
      "Forbidden"; neither sends anything. Otherwise the form is sent with PUT and, once
      it succeeds, the editor goes to the idea's page; a failure shows its error. */
  function OnSave(routeId: Option<string>, p: Page, user: Option<User>, reply: Reply<()>): (r: Saved)
    ensures !Truthy(routeId) ==> r == Saved(None, [])
    ensures Truthy(routeId) && IsBlank(p.form.title) ==> r == Saved(Some("Title is required"), [])
    ensures Truthy(routeId) && !IsBlank(p.form.title) && !CanEdit(p.idea, user) ==>
      r == Saved(Some("Forbidden"), [])
    ensures r.trace != [] <==> Truthy(routeId) && !IsBlank(p.form.title) && CanEdit(p.idea, user)
    ensures r.trace != [] ==> r.trace[0] == SaveCall(routeId.value, p.form)
    ensures Navigates(r.trace) <==> r.trace != [] && Receive(reply).Success?
    ensures Navigates(r.trace) ==>
      r.trace == [SaveCall(routeId.value, p.form), Navigate("/ideas/" + routeId.value, false)]
      && r.toast == Some("Idea updated")
    ensures r.trace != [] && Receive(reply).Failure? ==>
      r.toast == Some(HumanizeError(Receive(reply).error))
  {
    if !Truthy(routeId) then Saved(None, [])
    else if IsBlank(p.form.title) then Saved(Some("Title is required"), [])
    else if !CanEdit(p.idea, user) then Saved(Some("Forbidden"), [])
    else
      var id := routeId.value;
      match Receive(reply)
      case Success(_) =>
        var trace := [SaveCall(id, p.form), Navigate("/ideas/" + id, false)];
        assert trace[1].Navigate?;
        Saved(Some("Idea updated"), trace)
      case Failure(e) => Saved(Some(HumanizeError(e)), [SaveCall(id, p.form)])
  }

  /** Whenever the Save button is enabled on a routed page, pressing it passes both
      guards and sends the form. */
  lemma EnabledSaveSends(routeId: Option<string>, p: Page, user: Option<User>, reply: Reply<()>)
    requires Truthy(routeId) && !SaveDisabled(p.saving, CanEdit(p.idea, user), p.form.title)
    ensures OnSave(routeId, p, user, reply).trace != []
    ensures OnSave(routeId, p, user, reply).trace[0] == SaveCall(routeId.value, p.form)
  {
  }

  /** Saving an idea straight after loading sends back what was loaded, with the defaults
      filled in. */
  lemma SaveAfterLoadRoundTrip(routeId: Option<string>, p: Page, user: Option<User>,
                               loaded: Reply<IdeaBody>, saved: Reply<()>)
    requires Truthy(routeId)
    requires Receive(loaded).Success? && Receive(loaded).value.Some? && Receive(loaded).value.value.idea.Some?
    requires var i := Receive(loaded).value.value.idea.value;
      Truthy(i.title) && !IsBlank(i.title.value) && CanEdit(Some(i), user)
    ensures var i := Receive(loaded).value.value.idea.value;
      var r := OnSave(routeId, Load(p, routeId, loaded).0, user, saved);
      r.trace != [] && r.trace[0].body[0] == ("title", Str(i.title.value))
      && r.trace[0].body[5] == ("isMonetizable", Bool(i.isMonetizable == Some(true)))
  {
  }
}
