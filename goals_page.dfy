/**
 * The goals page (src/app/goals/page.tsx): the new-goal form, adding, removing
 * and toggling sub-tasks, and the completion toast.
 */
module GoalsPage {
  import opened Wrappers
  import opened Schema
  import opened Seqs
  import opened Text
  import opened Patches
  import opened Progress

  // ---- New-goal form -----------------------------------------------------

  /** The "Break it down" input: a blank step is ignored, any other is appended untrimmed. */
  function AddInitialStep(steps: seq<string>, step: string): (r: seq<string>)
    ensures AllSpace(step) ==> r == steps
    ensures !AllSpace(step) ==> r == steps + [step]
  {
    BlankIffAllSpace(step);
    if IsBlank(step) then steps else steps + [step]
  }

  /** `s.filter((_, i) => i !== index)`, walking the list with the index shifted. */
  function DropIndex<T>(s: seq<T>, index: int): (r: seq<T>)
    ensures 0 <= index < |s| ==> r == s[..index] + s[index + 1..]
    ensures !(0 <= index < |s|) ==> r == s
  {
    if s == [] then []
    else
      var rest := DropIndex(s[1..], index - 1);
      assert 0 < index < |s| ==> s[1..][..index - 1] == s[1..index] && s[1..][index..] == s[index + 1..];
      assert s == [s[0]] + s[1..];
      (if index == 0 then [] else [s[0]]) + rest
  }

  /** The payload addGoal sends. */
  datatype GoalPayload = GoalPayload(title: string, description: string, emoji: string, priority: Priority,
                                     subtasks: seq<Subtask>)

  /** Every step becomes `{ title, completed: false }`, in order. */
  function StepsToSubtasks(steps: seq<string>): (r: seq<Subtask>)
    ensures |r| == |steps|
    ensures forall i :: 0 <= i < |steps| ==> r[i] == NewSubtask(steps[i])
  {
    if steps == [] then [] else [NewSubtask(steps[0])] + StepsToSubtasks(steps[1..])
  }

  /** addGoal: nothing for a blank title; otherwise the form with the steps as open sub-tasks. */
  function AddGoalPayload(title: string, description: string, emoji: string, priority: Priority,
                          steps: seq<string>): (r: Option<GoalPayload>)
    ensures r.None? <==> AllSpace(title)
    ensures r.Some? ==> r.value.title == title && |r.value.subtasks| == |steps|
    ensures r.Some? ==> r.value.subtasks == StepsToSubtasks(steps)
    ensures r.Some? ==> r.value.description == description && r.value.emoji == emoji && r.value.priority == priority
    ensures r.Some? ==> CalculateProgress(r.value.subtasks) == 0
  {
    BlankIffAllSpace(title);
    if IsBlank(title) then None
    else
      var subtasks := StepsToSubtasks(steps);
      FilterNone(subtasks, IsDone);
      Some(GoalPayload(title, description, emoji, priority, subtasks))
  }

  // ---- Sub-task edits on the cached goals --------------------------------

  function GoalHasId(id: Id): Goal -> bool {
    (g: Goal) => g.id == id
  }

  /** An update request for `updateGoal`. */
  datatype GoalRequest = GoalRequest(id: Id, updates: GoalPatch)

  /** addSubtask: nothing for a blank title or an unknown goal; else the list with one open sub-task appended. */
  function AddSubtask(goals: seq<Goal>, goalId: Id, title: string): (r: Option<GoalRequest>)
    ensures r.Some? <==> !AllSpace(title) && Find(goals, GoalHasId(goalId)).Some?
    ensures r.Some? ==> r.value.id == goalId
    ensures r.Some? ==> r.value.updates == NoGoalChanges.(subtasks := Present(Find(goals, GoalHasId(goalId)).value.subtasks + [NewSubtask(title)]))
  {
    BlankIffAllSpace(title);
    if IsBlank(title) then None
    else match Find(goals, GoalHasId(goalId))
      case None => None
      case Some(g) => Some(GoalRequest(goalId, NoGoalChanges.(subtasks := Present(g.subtasks + [NewSubtask(title)]))))
  }

  /** Appending an open sub-task never raises the percentage. */
  lemma AppendOpenSubtaskLowersProgress(subtasks: seq<Subtask>, title: string)
    ensures CalculateProgress(subtasks + [NewSubtask(title)]) <= CalculateProgress(subtasks)
  {
    var n, c := |subtasks|, Count(subtasks, IsDone);
    FilterSnoc(subtasks, NewSubtask(title), IsDone);
    CountAtMostLength(subtasks);
    if n > 0 {
      PercentMoreOpen(c, n);
    }
  }

  /** One more open sub-task: `round(100c/(n+1)) <= round(100c/n)`. */
  lemma PercentMoreOpen(c: nat, n: nat)
    requires 0 < n && c <= n
    ensures Percent(c, n + 1) <= Percent(c, n)
  {
    var q := Percent(c, n);
    var a := 200 * c + (n + 1);
    assert 2 * n * (q + 1) > 200 * c + n;
    assert 2 * (n + 1) * (q + 1) > a by {
      assert 2 * (n + 1) * (q + 1) == 2 * n * (q + 1) + 2 * (q + 1);
    }
    DivAtMost(a, 2 * (n + 1), q);
  }

  /** removeSubtask: nothing for an unknown goal; else the list without position `index` (unchanged if out of range). */
  function RemoveSubtask(goals: seq<Goal>, goalId: Id, index: int): (r: Option<GoalRequest>)
    ensures r.Some? <==> Find(goals, GoalHasId(goalId)).Some?
    ensures r.Some? ==> r.value.id == goalId && r.value.updates.subtasks.Present?
    ensures r.Some? ==>
      var before := Find(goals, GoalHasId(goalId)).value.subtasks;
      r.value.updates.subtasks.value == if 0 <= index < |before| then before[..index] + before[index + 1..] else before
  {
    match Find(goals, GoalHasId(goalId))
    case None => None
    case Some(g) => Some(GoalRequest(goalId, NoGoalChanges.(subtasks := Present(DropIndex(g.subtasks, index)))))
  }

  // ---- toggleSubtask -----------------------------------------------------

  /** A sub-task object the cache holds; the page mutates it in place. */
  class SubtaskCell {
    var title: string
    var completed: bool
    var deadline: Option<Instant>
    var notes: Option<string>

    constructor(title: string, completed: bool, deadline: Option<Instant>, notes: Option<string>)
      ensures this.title == title && this.completed == completed
      ensures this.deadline == deadline && this.notes == notes
    {
      this.title := title;
      this.completed := completed;
      this.deadline := deadline;
      this.notes := notes;
    }
  }

  /** The values the cells hold, as a list of sub-tasks. */
  function Snapshot(cells: seq<SubtaskCell>): (r: seq<Subtask>)
    reads set c | c in cells
    ensures |r| == |cells|
    ensures forall i :: 0 <= i < |cells| ==> r[i] == Subtask(cells[i].title, cells[i].completed, cells[i].deadline, cells[i].notes)
  {
    if cells == [] then []
    else [Subtask(cells[0].title, cells[0].completed, cells[0].deadline, cells[0].notes)] + Snapshot(cells[1..])
  }

  /** The sub-task with its completion flipped. */
  function Flip(s: Subtask): Subtask { s.(completed := !s.completed) }

  /** What toggleSubtask ends with: an exception for a missing index, or the list sent and whether the toast fires. */
  datatype ToggleOutcome = Thrown | Sent(subtasks: seq<Subtask>, celebrate: bool)

  /**
   * toggleSubtask as written: `[...goal.subtasks]` copies the references only,
   * so flipping `completed` also changes the cached goal's sub-task, and the
   * progress read "before" the update is read after the flip.  The toast
   * therefore never fires.
   */
  method ToggleSubtaskAsWritten(cells: seq<SubtaskCell>, index: int) returns (outcome: ToggleOutcome)
    requires forall i, j :: 0 <= i < j < |cells| ==> cells[i] != cells[j]
    modifies set c | c in cells
    ensures !(0 <= index < |cells|) ==> outcome == Thrown && Snapshot(cells) == old(Snapshot(cells))
    ensures 0 <= index < |cells| ==> outcome.Sent?
    ensures outcome.Sent? ==> outcome.subtasks == old(Snapshot(cells))[index := Flip(old(Snapshot(cells))[index])]
    ensures outcome.Sent? ==> Snapshot(cells) == outcome.subtasks
    ensures outcome.Sent? ==> !outcome.celebrate
  {
    if !(0 <= index < |cells|) {
      return Thrown;
    }
    ghost var before := Snapshot(cells);
    var updated := cells;
    var subtask := updated[index];
    subtask.completed := !subtask.completed;
    ghost var after := Snapshot(cells);
    assert forall i :: 0 <= i < |cells| && i != index ==> cells[i] != subtask;
    assert forall i :: 0 <= i < |cells| ==> after[i] == before[index := Flip(before[index])][i];
    var progressBefore := CalculateProgress(Snapshot(cells));
    var progressAfter := CalculateProgress(Snapshot(updated));
    outcome := Sent(Snapshot(updated), progressAfter == 100 && progressBefore < 100);
  }

  /**
   * toggleSubtask as evidently intended: the list sent is a copy with one
   * sub-task flipped, and the toast fires when the goal reaches 100% from below.
   */
  function ToggleSubtaskAt(subtasks: seq<Subtask>, index: int): (r: ToggleOutcome)
    ensures !(0 <= index < |subtasks|) <==> r == Thrown
    ensures r.Sent? ==> r.subtasks == subtasks[index := Flip(subtasks[index])]
    ensures r.Sent? ==> (r.celebrate <==> CalculateProgress(subtasks) < 100 && CalculateProgress(r.subtasks) == 100)
  {
    if !(0 <= index < |subtasks|) then Thrown
    else
      var updated := subtasks[index := Flip(subtasks[index])];
      Sent(updated, CalculateProgress(updated) == 100 && CalculateProgress(subtasks) < 100)
  }

  /** Below 200 sub-tasks, the toast fires exactly when the last open sub-task is completed. */
  lemma CelebratesOnLastStep(subtasks: seq<Subtask>, index: int)
    requires 0 <= index < |subtasks| < 200
    ensures ToggleSubtaskAt(subtasks, index).celebrate
        <==> !subtasks[index].completed && forall j :: 0 <= j < |subtasks| && j != index ==> subtasks[j].completed
  {
    var updated := subtasks[index := Flip(subtasks[index])];
    ProgressFullIffAllCompleted(subtasks);
    ProgressFullIffAllCompleted(updated);
    var othersDone := forall j :: 0 <= j < |subtasks| && j != index ==> subtasks[j].completed;
    assert othersDone <==> forall j :: 0 <= j < |updated| && j != index ==> updated[j].completed by {
      assert forall j :: 0 <= j < |subtasks| && j != index ==> updated[j] == subtasks[j];
    }
    assert updated[index].completed == !subtasks[index].completed;
  }

  /** On a goal whose one sub-task is open, the as-written toggle stays silent where the intended one celebrates. */
  method MissedCelebration() returns (asWritten: ToggleOutcome, intended: ToggleOutcome)
    ensures asWritten.Sent? && !asWritten.celebrate
    ensures intended.Sent? && intended.celebrate
  {
    var cell := new SubtaskCell("Buy a guitar", false, None, None);
    var cells := [cell];
    var values := Snapshot(cells);
    intended := ToggleSubtaskAt(values, 0);
    CelebratesOnLastStep(values, 0);
    asWritten := ToggleSubtaskAsWritten(cells, 0);
  }

  /** toggleSubtask on the cached goals: nothing for an unknown goal, else the intended toggle of its list. */
  function ToggleSubtask(goals: seq<Goal>, goalId: Id, index: int): (r: Option<(GoalRequest, bool)>)
    ensures Find(goals, GoalHasId(goalId)).None? ==> r.None?
    ensures r.Some? <==> Find(goals, GoalHasId(goalId)).Some? && 0 <= index < |Find(goals, GoalHasId(goalId)).value.subtasks|
    ensures r.Some? ==>
      var before := Find(goals, GoalHasId(goalId)).value.subtasks;
      0 <= index < |before|
      && r.value.0 == GoalRequest(goalId, NoGoalChanges.(subtasks := Present(before[index := Flip(before[index])])))
      && r.value.1 == ToggleSubtaskAt(before, index).celebrate
  {
    match Find(goals, GoalHasId(goalId))
    case None => None
    case Some(g) =>
      match ToggleSubtaskAt(g.subtasks, index)
      case Thrown => None
      case Sent(updated, celebrate) => Some((GoalRequest(goalId, NoGoalChanges.(subtasks := Present(updated))), celebrate))
  }
}
