/**
 * The tasks page (src/app/tasks/page.tsx): the `H:MM:SS` clock text, the live
 * timer display, the filter and pinned-first ordering, the timer buttons, the
 * input guards, and which view the page shows.
 */
module TasksPage {
  import opened Wrappers
  import opened Schema
  import opened Seqs
  import opened Sorting
  import opened Text
  import opened Patches
  import opened Timer
  import opened Store

  // ---- formatTime --------------------------------------------------------

  function ClockHours(ms: nat): nat { ms / 3600000 }
  function ClockMinutes(ms: nat): nat { (ms / 60000) % 60 }
  function ClockSeconds(ms: nat): nat { (ms / 1000) % 60 }

  /** The three fields split the whole seconds exactly, minutes and seconds below 60. */
  lemma ClockFieldsSplitSeconds(ms: nat)
    ensures ClockMinutes(ms) < 60 && ClockSeconds(ms) < 60
    ensures ClockHours(ms) * 3600 + ClockMinutes(ms) * 60 + ClockSeconds(ms) == ms / 1000
  {
    var secs := ms / 1000;
    var mins := secs / 60;
    MinutesOfMilliseconds(ms);
    HoursOfMinutes(ms);
    assert secs == mins * 60 + secs % 60;
    assert mins == (mins / 60) * 60 + mins % 60;
  }

  /** `floor(ms / 60000)` counts the whole minutes of the whole seconds. */
  lemma MinutesOfMilliseconds(ms: nat)
    ensures ms / 60000 == ms / 1000 / 60
  {
    var q1, q2, q3 := ms / 1000, ms / 1000 / 60, ms / 60000;
    assert 1000 * q1 <= ms < 1000 * q1 + 1000;
    assert 60 * q2 <= q1 < 60 * q2 + 60;
    assert 60000 * q3 <= ms < 60000 * q3 + 60000;
  }

  /** `floor(ms / 3600000)` counts the whole hours of the whole minutes. */
  lemma HoursOfMinutes(ms: nat)
    ensures ms / 3600000 == ms / 60000 / 60
  {
    var q1, q2, q3 := ms / 60000, ms / 60000 / 60, ms / 3600000;
    assert 60000 * q1 <= ms < 60000 * q1 + 60000;
    assert 60 * q2 <= q1 < 60 * q2 + 60;
    assert 3600000 * q3 <= ms < 3600000 * q3 + 3600000;
  }

  /** formatTime for a non-negative number of milliseconds: hours, minutes and seconds, each padded to two digits. */
  function FormatTime(ms: nat): (r: string)
    ensures |r| >= 8 && r[|r| - 3] == ':' && r[|r| - 6] == ':'
    ensures ms < 360000000 ==> |r| == 8
  {
    ClockFieldsSplitSeconds(ms);
    Pad2(ClockHours(ms)) + ":" + Pad2(ClockMinutes(ms)) + ":" + Pad2(ClockSeconds(ms))
  }

  /**
   * Reads a clock text back as whole seconds; None when it is not of the `H:MM:SS`
   * shape or its minutes or seconds are 60 or more.
   */
  function ParseClock(r: string): Option<nat> {
    if |r| >= 8 && r[|r| - 3] == ':' && r[|r| - 6] == ':'
    then ParseClockFields(r[..|r| - 6], r[|r| - 5..|r| - 3], r[|r| - 2..])
    else None
  }

  /** Hours, minutes and seconds texts read as whole seconds, if all three are digits and minutes and seconds are below 60. */
  function ParseClockFields(h: string, m: string, s: string): Option<nat> {
    if AllDigits(h) && AllDigits(m) && AllDigits(s) && DigitsValue(m) < 60 && DigitsValue(s) < 60
    then Some(ClockTotal(DigitsValue(h), DigitsValue(m), DigitsValue(s)))
    else None
  }

  /** Hours, minutes and seconds as whole seconds. */
  function ClockTotal(h: nat, m: nat, s: nat): nat { h * 3600 + m * 60 + s }

  /** A text of two-digit minutes and seconds after digit hours reads back field by field. */
  lemma ParseClockSplits(h: string, m: string, s: string)
    requires |h| >= 2 && |m| == 2 && |s| == 2
    requires AllDigits(h) && AllDigits(m) && AllDigits(s)
    ensures ParseClock(h + ":" + m + ":" + s) == ParseClockFields(h, m, s)
  {
    ClockTextSlices(h, m, s);
  }

  /** Where the three fields sit in a clock text with two-digit minutes and seconds. */
  lemma ClockTextSlices(h: string, m: string, s: string)
    requires |m| == 2 && |s| == 2
    ensures var r := h + ":" + m + ":" + s;
      && |r| == |h| + 6 && r[|r| - 3] == ':' && r[|r| - 6] == ':'
      && r[..|r| - 6] == h && r[|r| - 5..|r| - 3] == m && r[|r| - 2..] == s
  {
    var r := h + ":" + m + ":" + s;
    assert r[..|r| - 6] == h;
    assert r[|r| - 5..|r| - 3] == m;
    assert r[|r| - 2..] == s;
  }

  /**
   * The clock text loses only the milliseconds: it reads back as the whole seconds
   * elapsed.  Since a text with minutes or seconds of 60 or more does not read
   * back, the fields are the ones `FormatTimeFields` states.
   */
  lemma FormatTimeRoundTrip(ms: nat)
    ensures ParseClock(FormatTime(ms)) == Some(ms / 1000)
  {
    var hh, mm, ss := ClockHours(ms), ClockMinutes(ms), ClockSeconds(ms);
    ClockFieldsSplitSeconds(ms);
    Pad2Value(hh);
    Pad2Value(mm);
    Pad2Value(ss);
    ParseClockSplits(Pad2(hh), Pad2(mm), Pad2(ss));
    assert ParseClockFields(Pad2(hh), Pad2(mm), Pad2(ss)) == Some(ClockTotal(hh, mm, ss));
  }

  /**
   * The three fields of the clock text denote the hours, the minutes below 60 and
   * the seconds below 60 of the elapsed time.
   */
  lemma FormatTimeFields(ms: nat)
    ensures var r := FormatTime(ms);
      && AllDigits(r[..|r| - 6]) && DigitsValue(r[..|r| - 6]) == ClockHours(ms)
      && AllDigits(r[|r| - 5..|r| - 3]) && DigitsValue(r[|r| - 5..|r| - 3]) == ClockMinutes(ms) < 60
      && AllDigits(r[|r| - 2..]) && DigitsValue(r[|r| - 2..]) == ClockSeconds(ms) < 60
  {
    var hh, mm, ss := ClockHours(ms), ClockMinutes(ms), ClockSeconds(ms);
    ClockFieldsSplitSeconds(ms);
    Pad2Value(hh);
    Pad2Value(mm);
    Pad2Value(ss);
    ClockTextSlices(Pad2(hh), Pad2(mm), Pad2(ss));
    assert FormatTime(ms) == Pad2(hh) + ":" + Pad2(mm) + ":" + Pad2(ss);
  }

  // ---- TimerDisplay ------------------------------------------------------

  /** The base and start instant an interval computes its readings from. */
  datatype TickSource = TickSource(accumulated: int, start: Instant)

  /** The props the page passes: `accumulatedTime || 0` and `timerStatus || 'idle'`. */
  function TickSourceOf(t: Task): Option<TickSource> {
    if t.timerStatus == Running && t.startTime.Some? then Some(TickSource(Banked(t), t.startTime.value)) else None
  }

  /** The timer component: the shown milliseconds and the once-a-second interval, if one is set. */
  class TimerDisplay {
    var elapsed: int
    var ticking: Option<TickSource>

    /** `useState(accumulatedTime)`, before the effect runs. */
    constructor(t: Task)
      ensures elapsed == Banked(t) && ticking == None
    {
      elapsed := Banked(t);
      ticking := None;
    }

    /**
     * The effect for the task's current props: a running timer with a start
     * sets an interval and leaves the shown value alone until the first tick;
     * any other shows the banked time.
     */
    method Render(t: Task)
      modifies this
      ensures ticking == TickSourceOf(t)
      ensures ticking.Some? ==> elapsed == old(elapsed)
      ensures ticking.None? ==> elapsed == Elapsed(t, 0)
    {
      ticking := TickSourceOf(t);
      if ticking.None? {
        elapsed := Banked(t);
      }
    }

    /** One interval callback at clock reading `now`; only a set interval fires. */
    method Tick(now: Instant)
      requires ticking.Some?
      modifies this`elapsed
      ensures elapsed == ticking.value.accumulated + (now - ticking.value.start)
    {
      elapsed := ticking.value.accumulated + (now - ticking.value.start);
    }

    /** The text the component shows (negative readings are outside the model). */
    function Text(): (r: string)
      reads this
      requires elapsed >= 0
      ensures ParseClock(r) == Some(elapsed / 1000)
    {
      FormatTimeRoundTrip(elapsed);
      FormatTime(elapsed)
    }
  }

  /** Rendering a task and ticking shows the stopwatch reading at that instant. */
  method ShowAt(d: TimerDisplay, t: Task, now: Instant)
    modifies d
    ensures d.ticking == TickSourceOf(t)
    ensures d.elapsed == if d.ticking.Some? then Elapsed(t, now) else Elapsed(t, 0)
  {
    d.Render(t);
    if d.ticking.Some? {
      d.Tick(now);
    }
  }

  /**
   * A pause at `p` on a consistent running timer: once the paused task is
   * rendered, the display shows what the live display read at `p`.
   */
  lemma PauseKeepsDisplayedTime(t: Task, p: Instant)
    requires TimerConsistent(t) && t.timerStatus == Running
    ensures TickSourceOf(Step(t, Toggle(p))).None?
    ensures Elapsed(Step(t, Toggle(p)), 0) == Elapsed(t, p)
  {
    PausedReadingFrozen(t, p, 0);
  }

  // ---- Buttons -----------------------------------------------------------

  /** The pause icon replaces the play icon while the timer runs. */
  predicate ShowsPause(t: Task) { t.timerStatus == Running }

  /** "Stop & Save" is offered while the timer runs or is paused. */
  predicate ShowsStop(t: Task) { t.timerStatus == Running || t.timerStatus == Paused }

  /** "Reset Timer" is offered when time is banked or the timer is not idle. */
  predicate ShowsReset(t: Task) { Banked(t) > 0 || t.timerStatus != Idle }

  /** The buttons after each action. */
  lemma ButtonsAfterActions(t: Task, now: Instant)
    ensures ShowsStop(t) ==> ShowsReset(t)
    ensures !ShowsStop(Step(t, Stop(now)))
    ensures !ShowsReset(Reset(t)) && !ShowsStop(Reset(t))
    ensures ShowsPause(Step(t, Toggle(now))) <==> !ShowsPause(t)
    ensures ShowsReset(Step(t, Stop(now))) <==> Banked(Step(t, Stop(now))) > 0
  {
  }

  // ---- Filter and ordering -----------------------------------------------

  /** The filter buttons; any other value (`all`) keeps every task. */
  predicate MatchesFilter(filter: string, t: Task) {
    if filter == "completed" then t.status == Completed
    else if filter == "pending" then t.status == Pending
    else if filter == "high" then t.priority == High
    else true
  }

  function FilterBy(filter: string): Task -> bool {
    (t: Task) => MatchesFilter(filter, t)
  }

  function IsPinned(t: Task): bool { t.pinned }
  function IsUnpinned(t: Task): bool { !t.pinned }

  /** The comparator `a.pinned === b.pinned ? 0 : a.pinned ? -1 : 1` as a key. */
  function PinKey(t: Task): Key { Key(if t.pinned then 0 else 1, 0) }

  /** filteredTasks: the matching tasks, stably sorted by the pin key. */
  function VisibleTasks(tasks: seq<Task>, filter: string): (r: seq<Task>)
    ensures multiset(r) == multiset(Filter(tasks, FilterBy(filter)))
    ensures forall i :: 0 <= i < |r| ==> FilterBy(filter)(r[i])
  {
    var kept := Filter(tasks, FilterBy(filter));
    var r := SortBy(kept, PinKey);
    PermutationKeepsAll(kept, r, FilterBy(filter));
    r
  }

  /** Pinned tasks come first and each group keeps the order of the cache. */
  lemma VisibleTasksPinnedFirst(tasks: seq<Task>, filter: string)
    ensures VisibleTasks(tasks, filter)
         == Filter(Filter(tasks, FilterBy(filter)), IsPinned) + Filter(Filter(tasks, FilterBy(filter)), IsUnpinned)
  {
    var kept := Filter(tasks, FilterBy(filter));
    SortTwoClasses(kept, PinKey, IsPinned, IsUnpinned, Key(0, 0), Key(1, 0));
  }

  /** A filter value other than the three named ones keeps every task. */
  lemma OtherFilterKeepsAll(tasks: seq<Task>, filter: string)
    requires filter != "completed" && filter != "pending" && filter != "high"
    ensures Filter(tasks, FilterBy(filter)) == tasks
  {
    FilterAll(tasks, FilterBy(filter));
  }

  // ---- Input guards ------------------------------------------------------

  /** addTask: a blank title sends nothing; any other sends `{ title }` untrimmed. */
  function AddTaskTitle(newTitle: string): (r: Option<string>)
    ensures r.None? <==> AllSpace(newTitle)
    ensures r.Some? ==> r.value == newTitle
  {
    BlankIffAllSpace(newTitle);
    if IsBlank(newTitle) then None else Some(newTitle)
  }

  /** The title being edited, if any. */
  datatype Editing = Editing(id: Id, title: string)

  /** saveEditing: nothing without an edit or with a blank title; otherwise a title-only update. */
  function SaveEditing(editing: Option<Editing>): (r: Option<(Id, TaskPatch)>)
    ensures r.Some? <==> editing.Some? && !AllSpace(editing.value.title)
    ensures r.Some? ==> (r.value.0 == editing.value.id && r.value.1 == NoTaskChanges.(title := Present(editing.value.title)))
  {
    match editing
    case None => None
    case Some(e) =>
      BlankIffAllSpace(e.title);
      if IsBlank(e.title) then None else Some((e.id, NoTaskChanges.(title := Present(e.title))))
  }

  // ---- Which view the page shows -----------------------------------------

  datatype Screen = LoadingScreen | ListScreen(visible: seq<Task>) | EmptyScreen

  /**
   * As written, the page destructures the whole `loading` object, which is
   * always truthy, so the loading view depends on the list alone.
   */
  function ScreenAsWritten(loading: LoadingFlags, tasks: seq<Task>, filter: string): Screen {
    var isInitialLoading := tasks == [];
    if isInitialLoading then LoadingScreen
    else if |VisibleTasks(tasks, filter)| > 0 then ListScreen(VisibleTasks(tasks, filter))
    else EmptyScreen
  }

  /** Whether the add form is open: opened by the user, or shown for an empty, loaded list. */
  function ShowsAddFormAsWritten(isAdding: bool, loading: LoadingFlags, tasks: seq<Task>): bool {
    isAdding || (tasks == [] && !(tasks == []))
  }

  /** With an empty cache the as-written page never leaves the loading view nor opens the form by itself. */
  lemma EmptyTasksLoadForever(loading: LoadingFlags, filter: string)
    ensures ScreenAsWritten(loading, [], filter) == LoadingScreen
    ensures !ShowsAddFormAsWritten(false, loading, [])
  {
  }

  /** The view with the task flag read, as the goals and watchlist pages read theirs. */
  function ScreenFor(loading: LoadingFlags, tasks: seq<Task>, filter: string): (v: Screen)
    ensures v.LoadingScreen? <==> loading.tasks && tasks == []
    ensures v.ListScreen? ==> v.visible == VisibleTasks(tasks, filter) && v.visible != []
    ensures v.EmptyScreen? ==> VisibleTasks(tasks, filter) == []
  {
    var isInitialLoading := loading.tasks && tasks == [];
    if isInitialLoading then LoadingScreen
    else if |VisibleTasks(tasks, filter)| > 0 then ListScreen(VisibleTasks(tasks, filter))
    else EmptyScreen
  }

  function ShowsAddForm(isAdding: bool, loading: LoadingFlags, tasks: seq<Task>): bool {
    isAdding || (tasks == [] && !(loading.tasks && tasks == []))
  }

  /**
   * Corrected: once the first fetch into an empty cache returns an empty list,
   * the page shows the empty view and opens the add form.
   */
  method FirstFetchReturnsNothing(store: AppStore, filter: string) returns (v: Screen, formOpen: bool)
    requires store.tasks == []
    modifies store`tasks, store`loading
    ensures v == EmptyScreen && formOpen
  {
    store.FetchTasks(JsonArray([]));
    v := ScreenFor(store.loading, store.tasks, filter);
    formOpen := ShowsAddForm(false, store.loading, store.tasks);
  }
}
