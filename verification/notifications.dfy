/** The notifications page (src/pages/NotificationsPage.tsx): the sentence shown for each
    notification, the "Open idea" link, the per-item Read button and the two ways of
    marking notifications read.

    The list and mark requests are helpers outside this model; how each settled is an
    input. `new Date().toISOString()` is the clock, passed in as `now`. */
module Notifications {
  import opened Wrappers
  import opened Strings
  import opened Errors

  /** The populated actor and idea of a notification; any field may be missing. */
  datatype Actor = Actor(username: Option<string>)
  datatype IdeaRef = IdeaRef(id: Option<string>, title: Option<string>)

  datatype Item = Item(id: string, kind: string, actor: Option<Actor>, idea: Option<IdeaRef>,
                       readAt: Option<string>)

  /** `n.actorId?.username || "Someone"`. */
  function ActorName(n: Item): (r: string)
    ensures r != []
    ensures n.actor.Some? && Truthy(n.actor.value.username) ==> r == n.actor.value.username.value
    ensures n.actor.None? || !Truthy(n.actor.value.username) ==> r == "Someone"
  {
    OrElse(if n.actor.Some? then n.actor.value.username else None, "Someone")
  }

  /** `n.ideaId?.title || "your idea"`. */
  function IdeaTitle(n: Item): (r: string)
    ensures r != []
    ensures n.idea.Some? && Truthy(n.idea.value.title) ==> r == n.idea.value.title.value
    ensures n.idea.None? || !Truthy(n.idea.value.title) ==> r == "your idea"
  {
    OrElse(if n.idea.Some? then n.idea.value.title else None, "your idea")
  }

  /** The phrase for each notification type the page knows. */
  function Phrase(kind: string): Option<string> {
    match kind
    case "LIKE" => Some(" liked ")
    case "COMMENT" => Some(" commented on ")
    case "BOOKMARK" => Some(" bookmarked ")
    case "INTEREST" => Some(" showed interest in ")
    case _ => None
  }

  predicate Known(kind: string) {
    kind in {"LIKE", "COMMENT", "BOOKMARK", "INTEREST"}
  }

  function Quoted(s: string): string {
    "\"" + s + "\""
  }

  /** `renderText(n)`: for a known type, the actor's name, the phrase and the quoted
      title; for any other type, "New notification". */
  function RenderText(n: Item): (r: string)
    ensures !Known(n.kind) ==> r == "New notification"
    ensures Known(n.kind) ==>
      && ActorName(n) <= r
      && |r| >= |Quoted(IdeaTitle(n))|
      && r[|r| - |Quoted(IdeaTitle(n))|..] == Quoted(IdeaTitle(n))
  {
    match Phrase(n.kind)
    case None => "New notification"
    case Some(p) =>
      var q := Quoted(IdeaTitle(n));
      var r := ActorName(n) + p + q;
      assert r[|r| - |q|..] == q;
      r
  }

  /** The sentence for each of the four known types, for every notification. */
  lemma RenderTemplates(n: Item)
    ensures n.kind == "LIKE" ==> RenderText(n) == ActorName(n) + " liked \"" + IdeaTitle(n) + "\""
    ensures n.kind == "COMMENT" ==> RenderText(n) == ActorName(n) + " commented on \"" + IdeaTitle(n) + "\""
    ensures n.kind == "BOOKMARK" ==> RenderText(n) == ActorName(n) + " bookmarked \"" + IdeaTitle(n) + "\""
    ensures n.kind == "INTEREST" ==>
      RenderText(n) == ActorName(n) + " showed interest in \"" + IdeaTitle(n) + "\""
  {
  }

  /** A like on an idea whose author and title did not come back still reads as a sentence. */
  lemma RenderDefaults(id: string)
    ensures RenderText(Item(id, "LIKE", None, None, None)) == "Someone liked \"your idea\""
    ensures RenderText(Item(id, "FOLLOW", Some(Actor(Some("ann"))), None, None)) == "New notification"
  {
  }

  /** The "Open idea" link, shown when the notification names an idea id. */
  function OpenIdeaLink(n: Item): (r: Option<string>)
    ensures r.Some? <==> n.idea.Some? && Truthy(n.idea.value.id)
    ensures r.Some? ==> r.value == "/ideas/" + n.idea.value.id.value
  {
    if n.idea.Some? && Truthy(n.idea.value.id) then Some("/ideas/" + n.idea.value.id.value) else None
  }

  /** `load()`: the first page of up to fifty notifications replaces the list; on a failure
      the list stays and the error escapes. Either way `loading` ends false. */
  function Load(items: seq<Item>, outcome: Result<seq<Item>, Thrown>): (r: (seq<Item>, bool, Option<Thrown>))
    ensures !r.1
    ensures outcome.Success? ==> r.0 == outcome.value && r.2.None?
    ensures outcome.Failure? ==> r.0 == items && r.2 == Some(outcome.error)
  {
    match outcome
    case Success(listed) => (listed, false, None)
    case Failure(e) => (items, false, Some(e))
  }

  /** The item shows a Read button (and the unread background) while `readAt` is falsy. */
  predicate ShowsRead(n: Item) {
    !Truthy(n.readAt)
  }

  /** The list with every item whose id is `id` stamped read at `now`, in place. */
  function StampWhere(items: seq<Item>, id: string, now: string): (r: seq<Item>)
    ensures |r| == |items|
    ensures forall i :: 0 <= i < |items| && items[i].id == id ==> r[i] == items[i].(readAt := Some(now))
    ensures forall i :: 0 <= i < |items| && items[i].id != id ==> r[i] == items[i]
  {
    if items == [] then []
    else
      var head := if items[0].id == id then items[0].(readAt := Some(now)) else items[0];
      [head] + StampWhere(items[1..], id, now)
  }

  /** The list with every item stamped read at `now`, in order. */
  function StampAll(items: seq<Item>, now: string): (r: seq<Item>)
    ensures |r| == |items|
    ensures forall i :: 0 <= i < |items| ==> r[i] == items[i].(readAt := Some(now))
  {
    if items == [] then [] else [items[0].(readAt := Some(now))] + StampAll(items[1..], now)
  }

  /** `markOne(id)`: once the request succeeds, the items with that id are stamped read at
      `now` and keep every other field; the rest are unchanged. When it fails the list is
      unchanged and the error escapes. */
  function MarkOne(items: seq<Item>, id: string, now: string, outcome: Result<(), Thrown>)
    : (r: Result<seq<Item>, Thrown>)
    requires now != []
    ensures outcome.Failure? ==> r == Failure(outcome.error)
    ensures outcome.Success? ==> r.Success? && |r.value| == |items|
    ensures outcome.Success? ==> forall i :: 0 <= i < |items| ==>
      && r.value[i].id == items[i].id
      && (items[i].id == id ==> r.value[i] == items[i].(readAt := Some(now)) && !ShowsRead(r.value[i]))
      && (items[i].id != id ==> r.value[i] == items[i])
  {
    if outcome.Failure? then Failure(outcome.error) else Success(StampWhere(items, id, now))
  }

  /** `markAll()`: once the request succeeds, every item is read and keeps its place. */
  function MarkAll(items: seq<Item>, now: string, outcome: Result<(), Thrown>)
    : (r: Result<seq<Item>, Thrown>)
    requires now != []
    ensures outcome.Failure? ==> r == Failure(outcome.error)
    ensures outcome.Success? ==> r.Success? && |r.value| == |items|
    ensures outcome.Success? ==> forall i :: 0 <= i < |items| ==>
      r.value[i] == items[i].(readAt := Some(now)) && !ShowsRead(r.value[i])
  {
    if outcome.Failure? then Failure(outcome.error) else Success(StampAll(items, now))
  }

  /** The ids of the listed items, in order. */
  function Ids(items: seq<Item>): (r: seq<string>)
    ensures |r| == |items| && forall i :: 0 <= i < |items| ==> r[i] == items[i].id
  {
    if items == [] then [] else [items[0].id] + Ids(items[1..])
  }

  /** Stamping, one request after another, every id of `ids`. */
  function StampEach(items: seq<Item>, ids: seq<string>, now: string): seq<Item>
    decreases |ids|
  {
    if ids == [] then items else StampEach(StampWhere(items, ids[0], now), ids[1..], now)
  }

  /** After stamping a list of ids, exactly the items whose id is in the list are read. */
  lemma {:induction false} StampEachEffect(items: seq<Item>, ids: seq<string>, now: string)
    ensures |StampEach(items, ids, now)| == |items|
    ensures forall i :: 0 <= i < |items| ==>
      StampEach(items, ids, now)[i] == if items[i].id in ids then items[i].(readAt := Some(now)) else items[i]
    decreases |ids|
  {
    if ids != [] {
      var w := StampWhere(items, ids[0], now);
      StampEachEffect(w, ids[1..], now);
      forall i | 0 <= i < |items|
        ensures StampEach(items, ids, now)[i] == if items[i].id in ids then items[i].(readAt := Some(now)) else items[i]
      {
        assert items[i].id in ids <==> items[i].id == ids[0] || items[i].id in ids[1..] by {
          assert ids == [ids[0]] + ids[1..];
        }
      }
    }
  }

  /** "Mark all read" has the effect of pressing Read on every item in turn. */
  lemma MarkAllIsEveryMarkOne(items: seq<Item>, now: string)
    ensures StampAll(items, now) == StampEach(items, Ids(items), now)
  {
    StampEachEffect(items, Ids(items), now);
    forall i | 0 <= i < |items|
      ensures items[i].id in Ids(items)
    {
      assert Ids(items)[i] == items[i].id;
    }
  }
}
