/**
 * The read-only route handlers: the GET listings of /api/tasks, /api/goals,
 * /api/watchlist and /api/history, the account export and the preferences
 * read.  Each is a query over the collections, scoped to the session's user.
 * A collection is the sequence of its documents in insertion order; the sort
 * that MongoDB applies is modelled as the stable sort of `Sorting`.
 */
module Queries {
  import opened Wrappers
  import opened Seqs
  import opened Sorting
  import opened Schema
  import opened Api

  function OwnsTask(uid: Id): Task -> bool { (t: Task) => t.owner == uid }
  function OwnsGoal(uid: Id): Goal -> bool { (g: Goal) => g.owner == uid }
  function OwnsItem(uid: Id): WatchlistItem -> bool { (w: WatchlistItem) => w.owner == uid }
  function OwnsActivity(uid: Id): Activity -> bool { (a: Activity) => a.owner == uid }

  /** `sort({ pinned: -1, createdAt: -1 })`. */
  function PinnedThenNewest(t: Task): Key { Key(if t.pinned then 0 else 1, -t.createdAt) }
  /** `sort({ createdAt: -1 })`. */
  function GoalNewest(g: Goal): Key { Key(-g.createdAt, 0) }
  function ItemNewest(w: WatchlistItem): Key { Key(-w.createdAt, 0) }
  function ActivityNewest(a: Activity): Key { Key(-a.createdAt, 0) }

  /** GET /api/tasks: the caller's tasks, pinned ones first, then newest first. */
  function ListTasks(session: Session, tasks: seq<Task>): (r: Response<seq<Task>>)
    ensures session.None? ==> r == Failed(401, UnauthorizedError)
    ensures session.Some? ==> r.Ok?
    ensures r.Ok? ==> forall t :: t in r.value <==> t in tasks && t.owner == session.value.id
    ensures r.Ok? ==> |r.value| == Count(tasks, OwnsTask(session.value.id))
    ensures r.Ok? ==> forall i, j :: 0 <= i < j < |r.value| ==> r.value[i].pinned || !r.value[j].pinned
    ensures r.Ok? ==> forall i, j :: 0 <= i < j < |r.value| && r.value[i].pinned == r.value[j].pinned ==>
                        r.value[i].createdAt >= r.value[j].createdAt
  {
    if session.None? then Failed(401, UnauthorizedError)
    else
      var sorted := SortBy(Filter(tasks, OwnsTask(session.value.id)), PinnedThenNewest);
      SortedSelection(tasks, OwnsTask(session.value.id), PinnedThenNewest);
      PinnedThenNewestOrder(sorted);
      Ok(sorted)
  }

  /** Ascending `PinnedThenNewest` keys: pinned tasks first, each group newest first. */
  lemma PinnedThenNewestOrder(s: seq<Task>)
    requires SortedBy(s, PinnedThenNewest)
    ensures forall i, j :: 0 <= i < j < |s| ==> s[i].pinned || !s[j].pinned
    ensures forall i, j :: 0 <= i < j < |s| && s[i].pinned == s[j].pinned ==> s[i].createdAt >= s[j].createdAt
  {
    forall i, j | 0 <= i < j < |s| ensures s[i].pinned || !s[j].pinned {
      assert KeyLe(PinnedThenNewest(s[i]), PinnedThenNewest(s[j]));
    }
    forall i, j | 0 <= i < j < |s| && s[i].pinned == s[j].pinned ensures s[i].createdAt >= s[j].createdAt {
      assert KeyLe(PinnedThenNewest(s[i]), PinnedThenNewest(s[j]));
    }
  }

  /** GET /api/goals: the caller's goals, newest first. */
  function ListGoals(session: Session, goals: seq<Goal>): (r: Response<seq<Goal>>)
    ensures session.None? ==> r == Failed(401, UnauthorizedError)
    ensures session.Some? ==> r.Ok?
    ensures r.Ok? ==> forall g :: g in r.value <==> g in goals && g.owner == session.value.id
    ensures r.Ok? ==> |r.value| == Count(goals, OwnsGoal(session.value.id))
    ensures r.Ok? ==> forall i, j :: 0 <= i < j < |r.value| ==> r.value[i].createdAt >= r.value[j].createdAt
  {
    if session.None? then Failed(401, UnauthorizedError)
    else
      var sorted := SortBy(Filter(goals, OwnsGoal(session.value.id)), GoalNewest);
      SortedSelection(goals, OwnsGoal(session.value.id), GoalNewest);
      DescendingStamps(sorted, GoalNewest, (g: Goal) => g.createdAt);
      Ok(sorted)
  }

  /** GET /api/watchlist: the caller's items, newest first. */
  function ListWatchlist(session: Session, items: seq<WatchlistItem>): (r: Response<seq<WatchlistItem>>)
    ensures session.None? ==> r == Failed(401, UnauthorizedError)
    ensures session.Some? ==> r.Ok?
    ensures r.Ok? ==> forall w :: w in r.value <==> w in items && w.owner == session.value.id
    ensures r.Ok? ==> |r.value| == Count(items, OwnsItem(session.value.id))
    ensures r.Ok? ==> forall i, j :: 0 <= i < j < |r.value| ==> r.value[i].createdAt >= r.value[j].createdAt
  {
    if session.None? then Failed(401, UnauthorizedError)
    else
      var sorted := SortBy(Filter(items, OwnsItem(session.value.id)), ItemNewest);
      SortedSelection(items, OwnsItem(session.value.id), ItemNewest);
      DescendingStamps(sorted, ItemNewest, (w: WatchlistItem) => w.createdAt);
      Ok(sorted)
  }

  const HistoryLimit: nat := 50

  /** The caller's activities, newest first, before the limit is applied. */
  function NewestActivities(activities: seq<Activity>, uid: Id): (r: seq<Activity>)
    ensures forall a :: a in r <==> a in activities && a.owner == uid
    ensures |r| == Count(activities, OwnsActivity(uid))
    ensures forall i, j :: 0 <= i < j < |r| ==> r[i].createdAt >= r[j].createdAt
  {
    var sorted := SortBy(Filter(activities, OwnsActivity(uid)), ActivityNewest);
    SortedSelection(activities, OwnsActivity(uid), ActivityNewest);
    DescendingStamps(sorted, ActivityNewest, (a: Activity) => a.createdAt);
    assert forall a :: a in sorted <==> a in activities && OwnsActivity(uid)(a);
    sorted
  }

  /**
   * GET /api/history: the 50 newest of the caller's activities (all of them when
   * there are fewer), newest first; an activity of the caller's that is left out
   * is no newer than any returned.
   */
  function History(session: Session, activities: seq<Activity>): (r: Response<seq<Activity>>)
    ensures session.None? ==> r == Failed(401, UnauthorizedError)
    ensures session.Some? ==> r.Ok?
    ensures r.Ok? ==> |r.value| <= HistoryLimit
    ensures r.Ok? ==> r.value == Take(NewestActivities(activities, session.value.id), HistoryLimit)
    ensures r.Ok? ==> |r.value| == var owned := Count(activities, OwnsActivity(session.value.id));
                                  if owned < HistoryLimit then owned else HistoryLimit
    ensures r.Ok? ==> forall a :: a in r.value ==> a in activities && a.owner == session.value.id
    ensures r.Ok? ==> forall i, j :: 0 <= i < j < |r.value| ==> r.value[i].createdAt >= r.value[j].createdAt
    ensures r.Ok? && Count(activities, OwnsActivity(session.value.id)) <= HistoryLimit ==>
              forall a :: a in activities && a.owner == session.value.id ==> a in r.value
    ensures r.Ok? ==> forall a :: a in activities && a.owner == session.value.id && a !in r.value ==>
              forall i :: 0 <= i < |r.value| ==> r.value[i].createdAt >= a.createdAt
  {
    if session.None? then Failed(401, UnauthorizedError)
    else
      var uid := session.value.id;
      var sorted := NewestActivities(activities, uid);
      var shown := Take(sorted, HistoryLimit);
      LeftOutIsOlder(sorted, HistoryLimit);
      Ok(shown)
  }

  /** Of a newest-first list, an element past the first `n` is no newer than any of them. */
  lemma LeftOutIsOlder(sorted: seq<Activity>, n: nat)
    requires forall i, j :: 0 <= i < j < |sorted| ==> sorted[i].createdAt >= sorted[j].createdAt
    ensures forall a :: a in Take(sorted, n) ==> a in sorted
    ensures forall a :: a in sorted && a !in Take(sorted, n) ==>
              forall i :: 0 <= i < |Take(sorted, n)| ==> Take(sorted, n)[i].createdAt >= a.createdAt
  {
    var shown := Take(sorted, n);
    assert forall j :: 0 <= j < |shown| ==> shown[j] == sorted[j];
    forall a | a in sorted && a !in shown
      ensures forall i :: 0 <= i < |shown| ==> shown[i].createdAt >= a.createdAt
    {
      var k :| 0 <= k < |sorted| && sorted[k] == a;
      assert k >= |shown|;
    }
  }

  // ---- export ------------------------------------------------------------------------

  /** The body of GET /api/user/export; `history` holds the activities. */
  datatype ExportData = ExportData(
    exportDate: Instant,
    user: SessionUser,
    tasks: seq<Task>,
    goals: seq<Goal>,
    watchlist: seq<WatchlistItem>,
    history: seq<Activity>)

  /** GET /api/user/export: the session's user block and every document the caller owns, in stored order. */
  function Export(session: Session, tasks: seq<Task>, goals: seq<Goal>, watchlist: seq<WatchlistItem>,
                  activities: seq<Activity>, now: Instant): (r: Response<ExportData>)
    ensures session.None? ==> r == Failed(401, UnauthorizedError)
    ensures session.Some? ==> r.Ok? && r.value.user == session.value && r.value.exportDate == now
    ensures r.Ok? ==> forall t :: t in r.value.tasks <==> t in tasks && t.owner == session.value.id
    ensures r.Ok? ==> forall g :: g in r.value.goals <==> g in goals && g.owner == session.value.id
    ensures r.Ok? ==> forall w :: w in r.value.watchlist <==> w in watchlist && w.owner == session.value.id
    ensures r.Ok? ==> forall a :: a in r.value.history <==> a in activities && a.owner == session.value.id
    ensures r.Ok? ==> |r.value.tasks| == Count(tasks, OwnsTask(session.value.id))
    ensures r.Ok? ==> |r.value.goals| == Count(goals, OwnsGoal(session.value.id))
    ensures r.Ok? ==> |r.value.watchlist| == Count(watchlist, OwnsItem(session.value.id))
    ensures r.Ok? ==> |r.value.history| == Count(activities, OwnsActivity(session.value.id))
    ensures r.Ok? ==> && r.value.tasks == Filter(tasks, OwnsTask(session.value.id))
                      && r.value.goals == Filter(goals, OwnsGoal(session.value.id))
                      && r.value.watchlist == Filter(watchlist, OwnsItem(session.value.id))
                      && r.value.history == Filter(activities, OwnsActivity(session.value.id))
  {
    if session.None? then Failed(401, UnauthorizedError)
    else
      var uid := session.value.id;
      FilterContains(tasks, OwnsTask(uid));
      FilterContains(goals, OwnsGoal(uid));
      FilterContains(watchlist, OwnsItem(uid));
      FilterContains(activities, OwnsActivity(uid));
      Ok(ExportData(now, session.value, Filter(tasks, OwnsTask(uid)), Filter(goals, OwnsGoal(uid)),
                    Filter(watchlist, OwnsItem(uid)), Filter(activities, OwnsActivity(uid))))
  }

  // ---- preferences ---------------------------------------------------------------------

  /** `{}`: the fallback of the preferences read. */
  const NoPreferences: Preferences := Preferences(None, None, None, None, None)

  /**
   * The preferences of a user document as Mongoose hydrates it: every property
   * missing from the stored object takes its schema default.
   */
  function Loaded(stored: Option<Preferences>): (p: Preferences)
    ensures p.theme.Some? && p.compactView.Some? && p.showTimestamps.Some?
    ensures p.motivationalQuotes.Some? && p.animationsEnabled.Some?
    ensures stored.Some? && stored.value.theme.Some? ==> p.theme == stored.value.theme
    ensures (stored.None? || stored.value.theme.None?) ==> p.theme == DefaultPreferences().theme
    ensures stored.Some? && stored.value.compactView.Some? ==> p.compactView == stored.value.compactView
    ensures (stored.None? || stored.value.compactView.None?) ==> p.compactView == DefaultPreferences().compactView
    ensures stored.Some? && stored.value.showTimestamps.Some? ==> p.showTimestamps == stored.value.showTimestamps
    ensures (stored.None? || stored.value.showTimestamps.None?) ==> p.showTimestamps == DefaultPreferences().showTimestamps
    ensures stored.Some? && stored.value.motivationalQuotes.Some? ==> p.motivationalQuotes == stored.value.motivationalQuotes
    ensures (stored.None? || stored.value.motivationalQuotes.None?) ==> p.motivationalQuotes == DefaultPreferences().motivationalQuotes
    ensures stored.Some? && stored.value.animationsEnabled.Some? ==> p.animationsEnabled == stored.value.animationsEnabled
    ensures (stored.None? || stored.value.animationsEnabled.None?) ==> p.animationsEnabled == DefaultPreferences().animationsEnabled
    ensures stored == Some(DefaultPreferences()) ==> p == DefaultPreferences()
  {
    var s := stored.GetOr(NoPreferences);
    var d := DefaultPreferences();
    Preferences(Some(s.theme.GetOr(d.theme.value)), Some(s.compactView.GetOr(d.compactView.value)),
                Some(s.showTimestamps.GetOr(d.showTimestamps.value)),
                Some(s.motivationalQuotes.GetOr(d.motivationalQuotes.value)),
                Some(s.animationsEnabled.GetOr(d.animationsEnabled.value)))
  }

  function UserId(u: User): Id { u.id }

  /** `User.findById(id)`: the document with that `_id`, if any. */
  function FindUser(users: seq<User>, uid: Id): (r: Option<User>)
    ensures r.Some? ==> r.value in users && r.value.id == uid
    ensures r.None? <==> forall u :: u in users ==> u.id != uid
  {
    Find(users, (u: User) => u.id == uid)
  }

  /** GET /api/user/preferences: `user?.preferences || {}`. */
  function GetPreferences(session: Session, users: seq<User>): (r: Response<Preferences>)
    ensures session.None? ==> r == Failed(401, UnauthorizedError)
    ensures session.Some? ==> r.Ok?
    ensures r.Ok? && FindUser(users, session.value.id).None? ==> r.value == NoPreferences
    ensures r.Ok? && FindUser(users, session.value.id).Some? ==>
              r.value == Loaded(FindUser(users, session.value.id).value.preferences)
    ensures r.Ok? ==> r.value == NoPreferences || r.value.theme.Some?
  {
    if session.None? then Failed(401, UnauthorizedError)
    else match FindUser(users, session.value.id)
      case None => Ok(NoPreferences)
      case Some(u) => Ok(Loaded(u.preferences))
  }
}
