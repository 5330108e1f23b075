/**
 * The dashboard (src/app/page.tsx): the pending-task, active-goal and
 * watchlist widgets computed from the cache, the greeting, and the
 * "mark as watched" shortcut.
 */
module Dashboard {
  import opened Wrappers
  import opened Schema
  import opened Seqs
  import opened Sorting
  import opened Patches
  import opened Progress
  import Store

  function IsPendingTask(t: Task): bool { t.status == Pending }

  /** The pending-task widget: the first five pending tasks in cache order. */
  function PendingWidget(tasks: seq<Task>): (r: seq<Task>)
    ensures |r| <= 5
    ensures forall i :: 0 <= i < |r| ==> r[i].status == Pending
    ensures r <= Filter(tasks, IsPendingTask)
    ensures |r| == if Count(tasks, IsPendingTask) < 5 then Count(tasks, IsPendingTask) else 5
  {
    var pending := Filter(tasks, IsPendingTask);
    assert forall i :: 0 <= i < |pending| ==> IsPendingTask(pending[i]);
    Take(pending, 5)
  }

  function IsActiveGoal(g: Goal): bool { g.status == Active }

  /** The active-goal widget: the first active goal, if any. */
  function ActiveGoalWidget(goals: seq<Goal>): (r: Option<Goal>)
    ensures r.Some? <==> exists i :: 0 <= i < |goals| && goals[i].status == Active
    ensures r.Some? ==> r.value in goals && r.value.status == Active
    ensures r.Some? ==> exists i :: 0 <= i < |goals| && goals[i] == r.value && forall j :: 0 <= j < i ==> goals[j].status != Active
  {
    Find(goals, IsActiveGoal)
  }

  function IsUnfinished(w: WatchlistItem): bool { w.status != Finished }

  /** The sort key of `new Date(b.updatedAt) - new Date(a.updatedAt)`: newest first. */
  function NewestFirst(w: WatchlistItem): Key { Key(-w.updatedAt, 0) }

  /** The watchlist widget: unfinished items, most recently updated first, at most three. */
  function WatchlistWidget(items: seq<WatchlistItem>): (r: seq<WatchlistItem>)
    ensures |r| <= 3
    ensures forall i :: 0 <= i < |r| ==> r[i].status != Finished
    ensures forall i, j :: 0 <= i < j < |r| ==> r[i].updatedAt >= r[j].updatedAt
    ensures |r| == if Count(items, IsUnfinished) < 3 then Count(items, IsUnfinished) else 3
    ensures multiset(r) <= multiset(items)
    ensures forall w :: w in items && w.status != Finished && w !in r ==>
              forall i :: 0 <= i < |r| ==> r[i].updatedAt >= w.updatedAt
  {
    var unfinished := Filter(items, IsUnfinished);
    var sorted := SortBy(unfinished, NewestFirst);
    SortBySorted(unfinished, NewestFirst);
    DescendingStamps(sorted, NewestFirst, (w: WatchlistItem) => w.updatedAt);
    PermutationKeepsAll(unfinished, sorted, IsUnfinished);
    WidgetDrawsFromItems(items, unfinished, sorted);
    Take(sorted, 3)
  }

  /** The first three of the sorted unfinished items come from `items`, and any unfinished item left out is no newer. */
  lemma WidgetDrawsFromItems(items: seq<WatchlistItem>, unfinished: seq<WatchlistItem>, sorted: seq<WatchlistItem>)
    requires unfinished == Filter(items, IsUnfinished) && multiset(sorted) == multiset(unfinished)
    requires forall i, j :: 0 <= i < j < |sorted| ==> sorted[i].updatedAt >= sorted[j].updatedAt
    ensures multiset(Take(sorted, 3)) <= multiset(items)
    ensures forall w :: w in items && w.status != Finished && w !in Take(sorted, 3) ==>
              forall i :: 0 <= i < |Take(sorted, 3)| ==> Take(sorted, 3)[i].updatedAt >= w.updatedAt
  {
    PrefixSubMultiset(sorted, |Take(sorted, 3)|);
    FilterSubMultiset(items, IsUnfinished);
    UnfinishedAllSorted(items, unfinished, sorted);
    LeftOutNoNewer(sorted, 3);
  }

  /** Every unfinished item of the list is among the sorted unfinished items. */
  lemma UnfinishedAllSorted(items: seq<WatchlistItem>, unfinished: seq<WatchlistItem>, sorted: seq<WatchlistItem>)
    requires unfinished == Filter(items, IsUnfinished) && multiset(sorted) == multiset(unfinished)
    ensures forall w :: w in items && w.status != Finished ==> w in sorted
  {
    FilterContains(items, IsUnfinished);
    forall w | w in items && w.status != Finished ensures w in sorted {
      assert w in unfinished;
      assert w in multiset(sorted);
    }
  }

  /** Of a list sorted newest first, an item past the first `n` is no newer than any of them. */
  lemma LeftOutNoNewer(sorted: seq<WatchlistItem>, n: nat)
    requires forall i, j :: 0 <= i < j < |sorted| ==> sorted[i].updatedAt >= sorted[j].updatedAt
    ensures forall w :: w in sorted && w !in Take(sorted, n) ==>
              forall i :: 0 <= i < |Take(sorted, n)| ==> Take(sorted, n)[i].updatedAt >= w.updatedAt
  {
    var shown := Take(sorted, n);
    forall w | w in sorted && w !in shown
      ensures forall i :: 0 <= i < |shown| ==> shown[i].updatedAt >= w.updatedAt
    {
      var k :| 0 <= k < |sorted| && sorted[k] == w;
      assert k >= |shown|;
    }
  }

  /** An unfinished item updated no earlier than every other unfinished item is shown. */
  lemma NewestUnfinishedShown(items: seq<WatchlistItem>, k: nat)
    requires k < |items| && items[k].status != Finished
    requires forall i :: 0 <= i < |items| && items[i].status != Finished ==> items[i].updatedAt < items[k].updatedAt || i == k
    ensures items[k] in WatchlistWidget(items)
  {
    var unfinished := Filter(items, IsUnfinished);
    var sorted := SortBy(unfinished, NewestFirst);
    SortBySorted(unfinished, NewestFirst);
    FilterMultiset(items, IsUnfinished);
    assert items[k] in multiset(items);
    assert items[k] in multiset(sorted);
    var j :| 0 <= j < |sorted| && sorted[j] == items[k];
    if j > 0 {
      assert KeyLe(NewestFirst(sorted[0]), NewestFirst(sorted[j]));
      assert sorted[0] in multiset(unfinished);
      assert sorted[0] in multiset(items);
      var m :| 0 <= m < |items| && items[m] == sorted[0];
      assert IsUnfinished(sorted[0]) by {
        assert forall i :: 0 <= i < |unfinished| ==> IsUnfinished(unfinished[i]);
        PermutationKeepsAll(unfinished, sorted, IsUnfinished);
      }
      assert m == k;
    }
    assert WatchlistWidget(items)[0] == sorted[0];
  }

  /** The "mark as watched" button: `updateWatchlistItem(id, { status: 'finished' })`. */
  function MarkWatched(items: seq<WatchlistItem>, id: Id): (r: seq<WatchlistItem>)
    ensures |r| == |items|
    ensures forall i :: 0 <= i < |r| ==> r[i].id == items[i].id
    ensures forall i :: 0 <= i < |r| ==> if items[i].id == id then r[i].status == Finished else r[i] == items[i]
  {
    UpdateById(items, WatchlistId, id, ApplyWatchlistPatch, NoWatchlistChanges.(status := Present(Finished)))
  }

  function HasOtherId(id: Id): WatchlistItem -> bool {
    (w: WatchlistItem) => w.id != id
  }

  /** Marking an item as watched removes it from the widget. */
  lemma MarkedWatchedLeavesWidget(items: seq<WatchlistItem>, id: Id)
    ensures forall i :: 0 <= i < |WatchlistWidget(MarkWatched(items, id))| ==> WatchlistWidget(MarkWatched(items, id))[i].id != id
  {
    var after := MarkWatched(items, id);
    var unfinished := Filter(after, IsUnfinished);
    var sorted := SortBy(unfinished, NewestFirst);
    forall i | 0 <= i < |after| && IsUnfinished(after[i]) ensures HasOtherId(id)(after[i]) {
      assert after[i].id == items[i].id;
    }
    FilterImplies(after, IsUnfinished, HasOtherId(id));
    PermutationKeepsAll(unfinished, sorted, HasOtherId(id));
    assert WatchlistWidget(after) <= sorted;
  }

  /** calculateProgress on the dashboard also accepts a missing sub-task list. */
  function DashboardProgress(subtasks: Option<seq<Subtask>>): (r: int)
    ensures 0 <= r <= 100
    ensures subtasks.None? ==> r == 0
    ensures subtasks.Some? ==> r == CalculateProgress(subtasks.value)
  {
    match subtasks
    case None => 0
    case Some(s) => CalculateProgress(s)
  }

  /** The greeting for the local hour (0 to 23). */
  function Greeting(hour: int): (r: string)
    ensures hour < 12 <==> r == "Good morning"
    ensures 12 <= hour < 18 <==> r == "Good afternoon"
    ensures 18 <= hour <==> r == "Good evening"
  {
    if hour < 12 then "Good morning" else if hour < 18 then "Good afternoon" else "Good evening"
  }

  /** The text before the first space (`split(" ")[0]`). */
  function FirstWord(s: string): (r: string)
    ensures r <= s && ' ' !in r
    ensures |r| < |s| ==> s[|r|] == ' '
  {
    if s == [] || s[0] == ' ' then [] else [s[0]] + FirstWord(s[1..])
  }

  /** `session?.user?.name?.split(" ")[0] || "User"` */
  function DisplayName(name: Option<string>): (r: string)
    ensures r != [] && ' ' !in r
    ensures name.Some? && FirstWord(name.value) != [] ==> r == FirstWord(name.value)
    ensures FirstWord(name.GetOr("")) == [] ==> r == "User"
  {
    match name
    case None => "User"
    case Some(n) => if FirstWord(n) == [] then "User" else FirstWord(n)
  }

  /** The widgets show "Loading..." while any cache list or the analytics request is loading. */
  function DashboardLoading(flags: Store.LoadingFlags, analyticsLoading: bool): (r: bool)
    ensures !r <==> !flags.tasks && !flags.goals && !flags.watchlist && !analyticsLoading
  {
    flags.tasks || flags.goals || flags.watchlist || analyticsLoading
  }

  /**
   * The dashboard's effect on an empty store fetches all three lists; once
   * they have resolved, however they resolved, only the analytics request can
   * keep "Loading..." on screen.
   */
  method LoadingAfterInitialFetches(taskResponse: Store.FetchResult<Task>, goalResponse: Store.FetchResult<Goal>,
                                    watchlistResponse: Store.FetchResult<WatchlistItem>, analyticsLoading: bool)
    returns (loading: bool)
    ensures loading == analyticsLoading
  {
    var store := new Store.AppStore();
    store.FetchTasks(taskResponse);
    store.FetchGoals(goalResponse);
    store.FetchWatchlist(watchlistResponse);
    loading := DashboardLoading(store.loading, analyticsLoading);
  }
}
