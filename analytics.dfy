/**
 * GET /api/analytics: the caller's activities of the last seven days counted
 * into seven daily buckets of completed tasks, plus three totals.  The handler
 * fills a seven-element array in a loop; so does the method here.
 */
module Analytics {
  import opened Wrappers
  import opened Seqs
  import opened Schema
  import opened Api

  /** `1000 * 60 * 60 * 24`. */
  const DayMs: int := 86400000
  const Days: nat := 7

  /**
   * `6 - Math.floor((now - createdAt) / DayMs)`.  The divisor is positive, so
   * Dafny's Euclidean `/` is the floor the source takes, negative ages included.
   */
  function DayIndex(now: Instant, createdAt: Instant): (r: int)
    ensures (6 - r) * DayMs <= now - createdAt < (7 - r) * DayMs
    ensures 0 <= now - createdAt < DayMs ==> r == 6
    ensures createdAt > now ==> r >= Days
  {
    6 - (now - createdAt) / DayMs
  }

  /** Conversely, an age in the band of day `k` gets index `k`. */
  lemma DayIndexOfBand(now: Instant, createdAt: Instant, k: int)
    requires (6 - k) * DayMs <= now - createdAt < (7 - k) * DayMs
    ensures DayIndex(now, createdAt) == k
  {
  }

  const CompletedAction: string := "task_completed"

  function IsCompletion(a: Activity): bool { a.action == CompletedAction }

  /** The activities bucket `k` counts. */
  function InBucket(now: Instant, k: int): Activity -> bool {
    (a: Activity) => IsCompletion(a) && DayIndex(now, a.createdAt) == k
  }

  /** The activities some bucket counts. */
  function InWindow(now: Instant): Activity -> bool {
    (a: Activity) => IsCompletion(a) && 0 <= DayIndex(now, a.createdAt) < Days
  }

  /** `Activity.find({ userId, createdAt: { $gte: since } })`. */
  function Recent(uid: Id, since: Instant): Activity -> bool {
    (a: Activity) => a.owner == uid && a.createdAt >= since
  }

  function PendingOf(uid: Id): Task -> bool { (t: Task) => t.owner == uid && t.status == Pending }
  function ActiveOf(uid: Id): Goal -> bool { (g: Goal) => g.owner == uid && g.status == Active }

  /** The seven bucket counts of `completionsByDay`. */
  function WeeklyCompletions(fetched: seq<Activity>, now: Instant): (r: seq<nat>)
    ensures |r| == Days
  {
    seq(Days, k => Count(fetched, InBucket(now, k)))
  }

  function WeekTotal(w: seq<nat>): nat
    requires |w| == Days
  {
    w[0] + w[1] + w[2] + w[3] + w[4] + w[5] + w[6]
  }

  datatype Stats = Stats(pendingTasks: nat, activeGoals: nat, totalActionsLastWeek: nat)
  datatype Report = Report(weeklyCompletions: seq<nat>, stats: Stats)

  /**
   * The handler: 401 without a session; otherwise the buckets of the fetched
   * activities and the counts of pending tasks, active goals and fetched
   * activities.  `since` is the instant seven calendar days before `now`.
   */
  method GetAnalytics(session: Session, activities: seq<Activity>, tasks: seq<Task>, goals: seq<Goal>,
                      now: Instant, since: Instant) returns (r: Response<Report>)
    ensures session.None? ==> r == Failed(401, UnauthorizedError)
    ensures session.Some? ==> r.Ok?
    ensures r.Ok? ==> r.value.weeklyCompletions == WeeklyCompletions(Filter(activities, Recent(session.value.id, since)), now)
    ensures r.Ok? ==> r.value.stats.pendingTasks == Count(tasks, PendingOf(session.value.id))
    ensures r.Ok? ==> r.value.stats.activeGoals == Count(goals, ActiveOf(session.value.id))
    ensures r.Ok? ==> r.value.stats.totalActionsLastWeek == Count(activities, Recent(session.value.id, since))
  {
    if session.None? {
      return Failed(401, UnauthorizedError);
    }
    var uid := session.value.id;
    var fetched := Filter(activities, Recent(uid, since));
    var weekly := CountCompletions(fetched, now);
    r := Ok(Report(weekly, Stats(Count(tasks, PendingOf(uid)), Count(goals, ActiveOf(uid)), |fetched|)));
  }

  /** The `forEach` that fills `completionsByDay`. */
  method CountCompletions(fetched: seq<Activity>, now: Instant) returns (weekly: seq<nat>)
    ensures weekly == WeeklyCompletions(fetched, now)
  {
    var completionsByDay := new nat[Days](_ => 0);
    NoCompletionsYet(now);
    var i := 0;
    while i < |fetched|
      invariant 0 <= i <= |fetched|
      invariant completionsByDay[..] == WeeklyCompletions(fetched[..i], now)
    {
      Tally(completionsByDay, fetched[i], now);
      assert fetched[..i + 1] == fetched[..i] + [fetched[i]];
      TalliedStep(fetched[..i], fetched[i], now);
      i := i + 1;
    }
    assert fetched[..i] == fetched;
    weekly := completionsByDay[..];
  }

  /** One iteration of the `forEach`: bump the activity's bucket if it counts. */
  method Tally(completionsByDay: array<nat>, activity: Activity, now: Instant)
    requires completionsByDay.Length == Days
    modifies completionsByDay
    ensures completionsByDay[..] == Tallied(old(completionsByDay[..]), activity, now)
  {
    var dayIndex := DayIndex(now, activity.createdAt);
    if IsCompletion(activity) && 0 <= dayIndex < Days {
      completionsByDay[dayIndex] := completionsByDay[dayIndex] + 1;
    }
  }

  lemma NoCompletionsYet(now: Instant)
    ensures WeeklyCompletions([], now) == seq(Days, _ => 0)
  {
  }

  /** The seven counts after one more activity has been looked at. */
  function Tallied(counts: seq<nat>, a: Activity, now: Instant): seq<nat>
    requires |counts| == Days
  {
    var k := DayIndex(now, a.createdAt);
    if IsCompletion(a) && 0 <= k < Days then counts[k := counts[k] + 1] else counts
  }

  lemma TalliedStep(s: seq<Activity>, a: Activity, now: Instant)
    ensures Tallied(WeeklyCompletions(s, now), a, now) == WeeklyCompletions(s + [a], now)
  {
    var before, after := WeeklyCompletions(s, now), WeeklyCompletions(s + [a], now);
    forall k | 0 <= k < Days ensures Tallied(before, a, now)[k] == after[k] {
      CountSnoc(s, a, InBucket(now, k));
    }
  }

  /** The buckets together count exactly the completions of the last seven days. */
  lemma {:induction false} WeekTotalCountsWindow(fetched: seq<Activity>, now: Instant)
    ensures WeekTotal(WeeklyCompletions(fetched, now)) == Count(fetched, InWindow(now))
  {
    if fetched != [] {
      var init, a := fetched[..|fetched| - 1], fetched[|fetched| - 1];
      assert fetched == init + [a];
      WeekTotalCountsWindow(init, now);
      CountSnoc(init, a, InWindow(now));
      CountSnoc(init, a, InBucket(now, 0));
      CountSnoc(init, a, InBucket(now, 1));
      CountSnoc(init, a, InBucket(now, 2));
      CountSnoc(init, a, InBucket(now, 3));
      CountSnoc(init, a, InBucket(now, 4));
      CountSnoc(init, a, InBucket(now, 5));
      CountSnoc(init, a, InBucket(now, 6));
    }
  }

  /**
   * The buckets never count more than the completions fetched, and those never
   * exceed `totalActionsLastWeek`.
   */
  lemma BucketsAtMostCompletions(fetched: seq<Activity>, now: Instant)
    ensures WeekTotal(WeeklyCompletions(fetched, now)) <= Count(fetched, IsCompletion) <= |fetched|
  {
    WeekTotalCountsWindow(fetched, now);
    CountImplies(fetched, InWindow(now), IsCompletion);
  }
}
