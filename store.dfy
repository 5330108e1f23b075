/**
 * The client-side cache of src/store/useStore.ts: three lists, three loading
 * flags, and the actions that update them optimistically.  The HTTP request
 * each action sends is left out; a response the cache uses is a parameter.
 */
module Store {
  import opened Wrappers
  import opened Schema
  import opened Seqs
  import opened Patches
  import opened Timer

  datatype LoadingFlags = LoadingFlags(tasks: bool, goals: bool, watchlist: bool)

  /** What `await res.json()` produced: an array, some other JSON value, or an exception. */
  datatype FetchResult<T> = JsonArray(items: seq<T>) | JsonOther | FetchFailed

  /** The list a fetch leaves: replaced only by an array. */
  function AfterFetch<T>(previous: seq<T>, response: FetchResult<T>): (r: seq<T>)
    ensures response.JsonArray? ==> r == response.items
    ensures !response.JsonArray? ==> r == previous
  {
    if response.JsonArray? then response.items else previous
  }

  /** toggleTask's new status: `pending` exactly when the caller says the task is completed. */
  function ToggledStatus(currentStatus: string): (s: TaskStatus)
    ensures s == Pending <==> currentStatus == TaskStatusName(Completed)
  {
    if currentStatus == "completed" then Pending else Completed
  }

  function TaskHasId(id: Id): Task -> bool {
    (t: Task) => t.id == id
  }

  class AppStore {
    var tasks: seq<Task>
    var goals: seq<Goal>
    var watchlist: seq<WatchlistItem>
    var loading: LoadingFlags

    /** The initial state: empty lists, nothing loading. */
    constructor()
      ensures tasks == [] && goals == [] && watchlist == []
      ensures loading == LoadingFlags(false, false, false)
    {
      tasks := [];
      goals := [];
      watchlist := [];
      loading := LoadingFlags(false, false, false);
    }

    // ---- Tasks -------------------------------------------------------------

    method SetTasks(ts: seq<Task>)
      modifies this`tasks
      ensures tasks == ts
    {
      tasks := ts;
    }

    /** First half of fetchTasks: only a fetch into an empty list shows the loading flag. */
    method BeginFetchTasks() returns (isInitialFetch: bool)
      modifies this`loading
      ensures isInitialFetch <==> tasks == []
      ensures loading == if isInitialFetch then old(loading).(tasks := true) else old(loading)
    {
      isInitialFetch := |tasks| == 0;
      if isInitialFetch {
        loading := loading.(tasks := true);
      }
    }

    /** Second half of fetchTasks: take an array response, then clear the flag this fetch raised. */
    method FinishFetchTasks(isInitialFetch: bool, response: FetchResult<Task>)
      modifies this`tasks, this`loading
      ensures tasks == AfterFetch(old(tasks), response)
      ensures loading == if isInitialFetch then old(loading).(tasks := false) else old(loading)
    {
      if response.JsonArray? {
        tasks := response.items;
      }
      if isInitialFetch {
        loading := loading.(tasks := false);
      }
    }

    /** fetchTasks with no other action in between: the flag ends as it started. */
    method FetchTasks(response: FetchResult<Task>)
      modifies this`tasks, this`loading
      ensures tasks == AfterFetch(old(tasks), response)
      ensures loading.tasks == (old(loading.tasks) && old(tasks) != [])
      ensures loading.goals == old(loading.goals) && loading.watchlist == old(loading.watchlist)
    {
      var isInitialFetch := BeginFetchTasks();
      FinishFetchTasks(isInitialFetch, response);
    }

    /** addTask: the record the server returned goes to the front. */
    method AddTask(created: Task)
      modifies this`tasks
      ensures tasks == [created] + old(tasks)
    {
      tasks := [created] + tasks;
    }

    /** updateTask: every cached task with that id gets the update merged in; order and length are kept. */
    method UpdateTask(id: Id, updates: TaskPatch)
      modifies this`tasks
      ensures tasks == UpdateById(old(tasks), TaskId, id, ApplyTaskPatch, updates)
      ensures |tasks| == |old(tasks)|
      ensures forall i :: 0 <= i < |tasks| && old(tasks)[i].id != id ==> tasks[i] == old(tasks)[i]
    {
      tasks := UpdateById(tasks, TaskId, id, ApplyTaskPatch, updates);
    }

    /** toggleTask: the status is computed from the caller's value, not from the cache. */
    method ToggleTask(id: Id, currentStatus: string)
      modifies this`tasks
      ensures |tasks| == |old(tasks)|
      ensures forall i :: 0 <= i < |tasks| ==>
        if old(tasks)[i].id == id then tasks[i] == old(tasks)[i].(status := ToggledStatus(currentStatus))
        else tasks[i] == old(tasks)[i]
    {
      tasks := UpdateById(tasks, TaskId, id, ApplyTaskPatch, NoTaskChanges.(status := Present(ToggledStatus(currentStatus))));
    }

    /** togglePin: the pin is set to the negation of the caller's value. */
    method TogglePin(id: Id, currentPinned: bool)
      modifies this`tasks
      ensures |tasks| == |old(tasks)|
      ensures forall i :: 0 <= i < |tasks| ==>
        if old(tasks)[i].id == id then tasks[i] == old(tasks)[i].(pinned := !currentPinned)
        else tasks[i] == old(tasks)[i]
    {
      tasks := UpdateById(tasks, TaskId, id, ApplyTaskPatch, NoTaskChanges.(pinned := Present(!currentPinned)));
    }

    /** deleteTask: drops exactly the tasks with that id. */
    method DeleteTask(id: Id)
      modifies this`tasks
      ensures tasks == RemoveById(old(tasks), TaskId, id)
      ensures forall i :: 0 <= i < |tasks| ==> tasks[i].id != id
      ensures forall i :: 0 <= i < |old(tasks)| && old(tasks)[i].id != id ==> old(tasks)[i] in tasks
    {
      tasks := RemoveById(tasks, TaskId, id);
    }

    /**
     * toggleTimer at clock reading `now`: nothing happens when no cached task has
     * the id; otherwise the update computed from the first such task is merged
     * into every task with that id, which leaves each of them consistent.
     */
    method ToggleTimer(id: Id, now: Instant)
      modifies this`tasks
      ensures Find(old(tasks), TaskHasId(id)).None? ==> tasks == old(tasks)
      ensures Find(old(tasks), TaskHasId(id)).Some? ==>
        tasks == UpdateById(old(tasks), TaskId, id, ApplyTaskPatch,
                            ToggleTimerUpdates(Find(old(tasks), TaskHasId(id)).value, now))
      ensures |tasks| == |old(tasks)|
      ensures forall i :: 0 <= i < |tasks| && old(tasks)[i].id != id ==> tasks[i] == old(tasks)[i]
      ensures forall i :: 0 <= i < |tasks| && old(tasks)[i].id == id && old(tasks)[i] == Find(old(tasks), TaskHasId(id)).value ==>
        tasks[i] == Step(old(tasks)[i], Toggle(now))
    {
      var found := Find(tasks, TaskHasId(id));
      if found.Some? {
        tasks := UpdateById(tasks, TaskId, id, ApplyTaskPatch, ToggleTimerUpdates(found.value, now));
      }
    }

    /** stopTimer at clock reading `now`, with the same lookup as toggleTimer. */
    method StopTimer(id: Id, now: Instant)
      modifies this`tasks
      ensures Find(old(tasks), TaskHasId(id)).None? ==> tasks == old(tasks)
      ensures Find(old(tasks), TaskHasId(id)).Some? ==>
        tasks == UpdateById(old(tasks), TaskId, id, ApplyTaskPatch,
                            StopTimerUpdates(Find(old(tasks), TaskHasId(id)).value, now))
      ensures |tasks| == |old(tasks)|
      ensures forall i :: 0 <= i < |tasks| && old(tasks)[i].id != id ==> tasks[i] == old(tasks)[i]
      ensures forall i :: 0 <= i < |tasks| && old(tasks)[i].id == id ==> tasks[i].timerStatus == Idle && TimerConsistent(tasks[i])
    {
      var found := Find(tasks, TaskHasId(id));
      if found.Some? {
        tasks := UpdateById(tasks, TaskId, id, ApplyTaskPatch, StopTimerUpdates(found.value, now));
      }
    }

    /** resetTimer: no lookup; every task with the id becomes idle with nothing banked. */
    method ResetTimer(id: Id)
      modifies this`tasks
      ensures |tasks| == |old(tasks)|
      ensures forall i :: 0 <= i < |tasks| ==>
        tasks[i] == if old(tasks)[i].id == id then Reset(old(tasks)[i]) else old(tasks)[i]
      ensures (forall i :: 0 <= i < |old(tasks)| ==> old(tasks)[i].id != id) ==> tasks == old(tasks)
    {
      tasks := UpdateById(tasks, TaskId, id, ApplyTaskPatch, ResetTimerUpdates);
    }

    // ---- Goals -------------------------------------------------------------

    method SetGoals(gs: seq<Goal>)
      modifies this`goals
      ensures goals == gs
    {
      goals := gs;
    }

    method BeginFetchGoals() returns (isInitialFetch: bool)
      modifies this`loading
      ensures isInitialFetch <==> goals == []
      ensures loading == if isInitialFetch then old(loading).(goals := true) else old(loading)
    {
      isInitialFetch := |goals| == 0;
      if isInitialFetch {
        loading := loading.(goals := true);
      }
    }

    method FinishFetchGoals(isInitialFetch: bool, response: FetchResult<Goal>)
      modifies this`goals, this`loading
      ensures goals == AfterFetch(old(goals), response)
      ensures loading == if isInitialFetch then old(loading).(goals := false) else old(loading)
    {
      if response.JsonArray? {
        goals := response.items;
      }
      if isInitialFetch {
        loading := loading.(goals := false);
      }
    }

    method FetchGoals(response: FetchResult<Goal>)
      modifies this`goals, this`loading
      ensures goals == AfterFetch(old(goals), response)
      ensures loading.goals == (old(loading.goals) && old(goals) != [])
      ensures loading.tasks == old(loading.tasks) && loading.watchlist == old(loading.watchlist)
    {
      var isInitialFetch := BeginFetchGoals();
      FinishFetchGoals(isInitialFetch, response);
    }

    method AddGoal(created: Goal)
      modifies this`goals
      ensures goals == [created] + old(goals)
    {
      goals := [created] + goals;
    }

    method UpdateGoal(id: Id, updates: GoalPatch)
      modifies this`goals
      ensures goals == UpdateById(old(goals), GoalId, id, ApplyGoalPatch, updates)
      ensures |goals| == |old(goals)|
      ensures forall i :: 0 <= i < |goals| && old(goals)[i].id != id ==> goals[i] == old(goals)[i]
    {
      goals := UpdateById(goals, GoalId, id, ApplyGoalPatch, updates);
    }

    method DeleteGoal(id: Id)
      modifies this`goals
      ensures goals == RemoveById(old(goals), GoalId, id)
      ensures forall i :: 0 <= i < |goals| ==> goals[i].id != id
    {
      goals := RemoveById(goals, GoalId, id);
    }

    // ---- Watchlist ---------------------------------------------------------

    method SetWatchlist(ws: seq<WatchlistItem>)
      modifies this`watchlist
      ensures watchlist == ws
    {
      watchlist := ws;
    }

    method BeginFetchWatchlist() returns (isInitialFetch: bool)
      modifies this`loading
      ensures isInitialFetch <==> watchlist == []
      ensures loading == if isInitialFetch then old(loading).(watchlist := true) else old(loading)
    {
      isInitialFetch := |watchlist| == 0;
      if isInitialFetch {
        loading := loading.(watchlist := true);
      }
    }

    method FinishFetchWatchlist(isInitialFetch: bool, response: FetchResult<WatchlistItem>)
      modifies this`watchlist, this`loading
      ensures watchlist == AfterFetch(old(watchlist), response)
      ensures loading == if isInitialFetch then old(loading).(watchlist := false) else old(loading)
    {
      if response.JsonArray? {
        watchlist := response.items;
      }
      if isInitialFetch {
        loading := loading.(watchlist := false);
      }
    }

    method FetchWatchlist(response: FetchResult<WatchlistItem>)
      modifies this`watchlist, this`loading
      ensures watchlist == AfterFetch(old(watchlist), response)
      ensures loading.watchlist == (old(loading.watchlist) && old(watchlist) != [])
      ensures loading.tasks == old(loading.tasks) && loading.goals == old(loading.goals)
    {
      var isInitialFetch := BeginFetchWatchlist();
      FinishFetchWatchlist(isInitialFetch, response);
    }

    method AddWatchlistItem(created: WatchlistItem)
      modifies this`watchlist
      ensures watchlist == [created] + old(watchlist)
    {
      watchlist := [created] + watchlist;
    }

    method UpdateWatchlistItem(id: Id, updates: WatchlistPatch)
      modifies this`watchlist
      ensures watchlist == UpdateById(old(watchlist), WatchlistId, id, ApplyWatchlistPatch, updates)
      ensures |watchlist| == |old(watchlist)|
      ensures forall i :: 0 <= i < |watchlist| && old(watchlist)[i].id != id ==> watchlist[i] == old(watchlist)[i]
    {
      watchlist := UpdateById(watchlist, WatchlistId, id, ApplyWatchlistPatch, updates);
    }

    method RemoveWatchlistItem(id: Id)
      modifies this`watchlist
      ensures watchlist == RemoveById(old(watchlist), WatchlistId, id)
      ensures forall i :: 0 <= i < |watchlist| ==> watchlist[i].id != id
    {
      watchlist := RemoveById(watchlist, WatchlistId, id);
    }

    /**
     * bootstrapData: the three fetches touch disjoint state, so running them one
     * after the other gives the result of any interleaving.
     */
    method Bootstrap(taskResponse: FetchResult<Task>, goalResponse: FetchResult<Goal>,
                     watchlistResponse: FetchResult<WatchlistItem>)
      modifies this`tasks, this`goals, this`watchlist, this`loading
      ensures tasks == AfterFetch(old(tasks), taskResponse)
      ensures goals == AfterFetch(old(goals), goalResponse)
      ensures watchlist == AfterFetch(old(watchlist), watchlistResponse)
      ensures loading.tasks == (old(loading.tasks) && old(tasks) != [])
      ensures loading.goals == (old(loading.goals) && old(goals) != [])
      ensures loading.watchlist == (old(loading.watchlist) && old(watchlist) != [])
    {
      FetchTasks(taskResponse);
      FetchGoals(goalResponse);
      FetchWatchlist(watchlistResponse);
    }
  }
}
