/**
 * The per-task stopwatch of src/store/useStore.ts (toggleTimer, stopTimer,
 * resetTimer): the update each action computes from the cached task, the task
 * it produces, and what a sequence of actions does to the banked time.
 */
module Timer {
  import opened Wrappers
  import opened Schema
  import opened Patches

  /** `task.accumulatedTime || 0`: the time banked by earlier runs, in milliseconds. */
  function Banked(t: Task): int {
    t.accumulatedTime.GetOr(0)
  }

  /**
   * The state the actions keep: a start instant is recorded exactly while the
   * timer runs.
   */
  predicate TimerConsistent(t: Task) {
    t.startTime.Some? <==> t.timerStatus == Running
  }

  /**
   * What the timer lemmas need of a cached task: a running timer has a start
   * instant.  A paused or idle task may still carry a stale start, as one
   * fetched back from the server does after `startTime: undefined` was dropped
   * from the update's JSON.
   */
  predicate StartRecorded(t: Task) {
    t.timerStatus == Running ==> t.startTime.Some?
  }

  /** The update carries only timer properties. */
  predicate TouchesOnlyTimer(p: TaskPatch) {
    p.title.Absent? && p.description.Absent? && p.priority.Absent? && p.status.Absent?
    && p.dueDate.Absent? && p.pinned.Absent?
  }

  /**
   * toggleTimer's update at clock reading `now`: a running timer pauses and banks
   * `now - startTime` (not a number when no start was recorded, so nothing is
   * banked); any other timer starts running from `now`.
   */
  function ToggleTimerUpdates(t: Task, now: Instant): (p: TaskPatch)
    ensures TouchesOnlyTimer(p)
    ensures p.timerStatus.Present? && p.timerStatus.value != t.timerStatus
    ensures p.timerStatus.value == Running <==> t.timerStatus != Running
    ensures t.timerStatus == Running ==> p.timerStatus == Present(Paused) && p.startTime == Present(None)
    ensures t.timerStatus == Running && t.startTime.Some? ==>
              p.accumulatedTime == Present(Some(Banked(t) + (now - t.startTime.value)))
    ensures t.timerStatus == Running && t.startTime.None? ==> p.accumulatedTime == Present(None)
    ensures t.timerStatus != Running ==>
              p.timerStatus == Present(Running) && p.startTime == Present(Some(now)) && p.accumulatedTime.Absent?
  {
    if t.timerStatus == Running then
      NoTaskChanges.(timerStatus := Present(Paused), startTime := Present(None),
                     accumulatedTime := Present(if t.startTime.Some? then Some(Banked(t) + now - t.startTime.value) else None))
    else
      NoTaskChanges.(timerStatus := Present(Running), startTime := Present(Some(now)))
  }

  /**
   * stopTimer's update: always back to idle without a start instant; a running
   * timer also banks its current run first.
   */
  function StopTimerUpdates(t: Task, now: Instant): (p: TaskPatch)
    ensures TouchesOnlyTimer(p)
    ensures p.timerStatus == Present(Idle) && p.startTime == Present(None)
    ensures p.accumulatedTime.Present? <==> t.timerStatus == Running
    ensures t.timerStatus == Running && t.startTime.Some? ==>
              p.accumulatedTime == Present(Some(Banked(t) + (now - t.startTime.value)))
    ensures t.timerStatus == Running && t.startTime.None? ==> p.accumulatedTime == Present(None)
  {
    var base := NoTaskChanges.(timerStatus := Present(Idle), startTime := Present(None));
    if t.timerStatus == Running then
      base.(accumulatedTime := Present(if t.startTime.Some? then Some(Banked(t) + now - t.startTime.value) else None))
    else
      base
  }

  /** resetTimer's update, independent of the task. */
  const ResetTimerUpdates: TaskPatch :=
    NoTaskChanges.(timerStatus := Present(Idle), startTime := Present(None), accumulatedTime := Present(Some(0)))

  /** One timer action, with the clock reading it takes. */
  datatype TimerEvent = Toggle(at: Instant) | Stop(at: Instant)

  function Updates(t: Task, e: TimerEvent): TaskPatch {
    match e
    case Toggle(now) => ToggleTimerUpdates(t, now)
    case Stop(now) => StopTimerUpdates(t, now)
  }

  /** The cached task after one action; every action leaves a consistent timer. */
  function Step(t: Task, e: TimerEvent): (r: Task)
    ensures TimerConsistent(r)
    ensures r.id == t.id && r.title == t.title && r.status == t.status && r.pinned == t.pinned
    ensures r.timerStatus == Running ==> e.Toggle? && t.timerStatus != Running && r.startTime == Some(e.at)
    ensures e.Toggle? ==> (r.timerStatus == Running <==> t.timerStatus != Running)
    ensures e.Toggle? && t.timerStatus == Running ==> r.timerStatus == Paused && r.startTime.None?
    ensures e.Stop? ==> r.timerStatus == Idle
  {
    ApplyTaskPatch(t, Updates(t, e))
  }

  /** The cached task after resetting: idle, nothing banked, whatever it was before. */
  function Reset(t: Task): (r: Task)
    ensures TimerConsistent(r) && r.timerStatus == Idle && Banked(r) == 0
    ensures r.id == t.id && r.title == t.title && r.status == t.status && r.pinned == t.pinned
  {
    ApplyTaskPatch(t, ResetTimerUpdates)
  }

  /** The task after a sequence of actions, applied in order. */
  function Replay(t: Task, evs: seq<TimerEvent>): Task
    decreases |evs|
  {
    if evs == [] then t else Replay(Step(t, evs[0]), evs[1..])
  }

  /**
   * Reference definition of the banked time a sequence of actions adds: the
   * total length of the stretches during which the stopwatch was on, where a
   * toggle switches it on or off and a stop switches it off.
   */
  function RunTime(running: bool, since: Instant, evs: seq<TimerEvent>): int
    decreases |evs|
  {
    if evs == [] then 0
    else
      var e := evs[0];
      (if running then e.at - since else 0)
      + RunTime(if e.Toggle? then !running else false, e.at, evs[1..])
  }

  /** The clock never runs backwards, and no action precedes the start of a running timer. */
  predicate ClockOrdered(t: Task, evs: seq<TimerEvent>) {
    (forall i, j :: 0 <= i <= j < |evs| ==> evs[i].at <= evs[j].at)
    && (t.timerStatus == Running && t.startTime.Some? && |evs| > 0 ==> t.startTime.value <= evs[0].at)
  }

  /** Banking is exact: the banked time grows by the reference run time. */
  lemma {:induction false} ReplayBanksRunTime(t: Task, evs: seq<TimerEvent>)
    requires StartRecorded(t)
    ensures Banked(Replay(t, evs)) == Banked(t) + RunTime(t.timerStatus == Running, t.startTime.GetOr(0), evs)
    decreases |evs|
  {
    if evs != [] {
      var e := evs[0];
      var s := Step(t, e);
      var on := if e.Toggle? then t.timerStatus != Running else false;
      assert Banked(s) == Banked(t) + (if t.timerStatus == Running then e.at - t.startTime.GetOr(0) else 0);
      assert (s.timerStatus == Running) == on;
      ReplayBanksRunTime(s, evs[1..]);
      RunTimeIgnoresStartWhenOff(on, s.startTime.GetOr(0), e.at, evs[1..]);
    }
  }

  /** While the stopwatch is off, where its last run started does not matter. */
  lemma RunTimeIgnoresStartWhenOff(running: bool, since1: Instant, since2: Instant, evs: seq<TimerEvent>)
    requires running ==> since1 == since2
    ensures RunTime(running, since1, evs) == RunTime(running, since2, evs)
  {
  }

  /** Replaying a concatenation replays its parts one after the other. */
  lemma {:induction false} ReplayAppend(t: Task, a: seq<TimerEvent>, b: seq<TimerEvent>)
    ensures Replay(t, a + b) == Replay(Replay(t, a), b)
    decreases |a|
  {
    if a == [] {
      assert a + b == b;
    } else {
      assert (a + b)[0] == a[0];
      assert (a + b)[1..] == a[1..] + b;
      ReplayAppend(Step(t, a[0]), a[1..], b);
    }
  }

  /** One action never decreases the banked time of a consistent timer whose clock is ordered. */
  lemma StepNeverLosesTime(t: Task, e: TimerEvent)
    requires StartRecorded(t)
    requires t.timerStatus == Running ==> t.startTime.value <= e.at
    ensures Banked(Step(t, e)) >= Banked(t)
  {
  }

  /** A running timer whose start instant was lost banks nothing when paused, dropping earlier runs. */
  lemma LostStartDropsBankedTime(t: Task, now: Instant)
    requires t.timerStatus == Running && t.startTime.None?
    ensures Banked(Step(t, Toggle(now))) == 0
  {
  }

  /** Over any ordered sequence of actions, the banked time never decreases. */
  lemma {:induction false} ReplayNeverLosesTime(t: Task, evs: seq<TimerEvent>)
    requires StartRecorded(t) && ClockOrdered(t, evs)
    ensures Banked(Replay(t, evs)) >= Banked(t)
    decreases |evs|
  {
    if evs != [] {
      var s := Step(t, evs[0]);
      StepNeverLosesTime(t, evs[0]);
      assert ClockOrdered(s, evs[1..]) by {
        if s.startTime.Some? && |evs| > 1 {
          assert s.startTime.value == evs[0].at;
          assert evs[0].at <= evs[1].at;
        }
      }
      ReplayNeverLosesTime(s, evs[1..]);
    }
  }

  /** The state after a non-empty sequence: a recorded start is the last action's instant. */
  lemma {:induction false} ReplayStartIsLastEvent(t: Task, evs: seq<TimerEvent>)
    requires |evs| > 0
    ensures TimerConsistent(Replay(t, evs))
    ensures Replay(t, evs).startTime.Some? ==> Replay(t, evs).startTime.value == evs[|evs| - 1].at
    decreases |evs|
  {
    if |evs| > 1 {
      ReplayStartIsLastEvent(Step(t, evs[0]), evs[1..]);
    }
  }

  /** Monotone over time: every prefix of an ordered run has banked no more than the whole run. */
  lemma PrefixBanksNoMore(t: Task, evs: seq<TimerEvent>, i: nat)
    requires StartRecorded(t) && ClockOrdered(t, evs) && i <= |evs|
    ensures Banked(Replay(t, evs[..i])) <= Banked(Replay(t, evs))
  {
    assert evs == evs[..i] + evs[i..];
    ReplayAppend(t, evs[..i], evs[i..]);
    var mid := Replay(t, evs[..i]);
    if i > 0 {
      ReplayStartIsLastEvent(t, evs[..i]);
      assert ClockOrdered(mid, evs[i..]) by {
        if mid.startTime.Some? && i < |evs| {
          assert mid.startTime.value == evs[i - 1].at;
        }
      }
    } else {
      assert evs[..i] == [];
    }
    ReplayNeverLosesTime(mid, evs[i..]);
  }

  /**
   * What the stopwatch reads at `now`: the banked time, plus the current run when
   * it is running from a recorded start.
   */
  function Elapsed(t: Task, now: Instant): int {
    if t.timerStatus == Running && t.startTime.Some? then Banked(t) + (now - t.startTime.value) else Banked(t)
  }

  /** No action makes the reading jump: at its own instant it reads what it read just before. */
  lemma StepKeepsElapsed(t: Task, e: TimerEvent)
    requires StartRecorded(t)
    ensures Elapsed(Step(t, e), e.at) == Elapsed(t, e.at)
  {
  }

  /** After a pause at `p` the reading stays frozen at what it was at `p`. */
  lemma PausedReadingFrozen(t: Task, p: Instant, later: Instant)
    requires StartRecorded(t) && t.timerStatus == Running
    ensures Elapsed(Step(t, Toggle(p)), later) == Elapsed(t, p)
  {
  }

  /** The reading after a sequence of actions: banked time, the reference run time, and the open run. */
  lemma {:induction false} ReplayElapsed(t: Task, evs: seq<TimerEvent>, now: Instant)
    requires StartRecorded(t) && |evs| > 0
    ensures Elapsed(Replay(t, evs), now)
         == Banked(t) + RunTime(t.timerStatus == Running, t.startTime.GetOr(0), evs)
            + (if Replay(t, evs).timerStatus == Running then now - evs[|evs| - 1].at else 0)
  {
    ReplayBanksRunTime(t, evs);
    ReplayStartIsLastEvent(t, evs);
  }

  /** Resetting twice is resetting once. */
  lemma ResetIdempotent(t: Task)
    ensures Reset(Reset(t)) == Reset(t)
  {
  }
}
