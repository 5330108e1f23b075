/**
 * `Partial<T>` update objects and the object spread `{ ...record, ...updates }`
 * the client cache uses to apply them (src/store/useStore.ts).
 */
module Patches {
  import opened Wrappers
  import opened Schema

  /** The task properties a client update may set; `_id`, owner and timestamps are not among them. */
  datatype TaskPatch = TaskPatch(
    title: Field<string>,
    description: Field<Option<string>>,
    priority: Field<Priority>,
    status: Field<TaskStatus>,
    dueDate: Field<Option<Instant>>,
    pinned: Field<bool>,
    timerStatus: Field<TimerStatus>,
    startTime: Field<Option<Instant>>,
    accumulatedTime: Field<Option<int>>)

  const NoTaskChanges: TaskPatch :=
    TaskPatch(Absent, Absent, Absent, Absent, Absent, Absent, Absent, Absent, Absent)

  /** `{ ...t, ...p }`: a property the patch mentions wins, every other one is kept. */
  function ApplyTaskPatch(t: Task, p: TaskPatch): (r: Task)
    ensures r.id == t.id && r.owner == t.owner && r.createdAt == t.createdAt && r.updatedAt == t.updatedAt
    ensures r.tags == t.tags && r.recurring == t.recurring && r.completedAt == t.completedAt
    ensures p == NoTaskChanges ==> r == t
    ensures r.title == (if p.title.Present? then p.title.value else t.title)
    ensures r.description == (if p.description.Present? then p.description.value else t.description)
    ensures r.priority == (if p.priority.Present? then p.priority.value else t.priority)
    ensures r.status == (if p.status.Present? then p.status.value else t.status)
    ensures r.dueDate == (if p.dueDate.Present? then p.dueDate.value else t.dueDate)
    ensures r.pinned == (if p.pinned.Present? then p.pinned.value else t.pinned)
    ensures r.timerStatus == (if p.timerStatus.Present? then p.timerStatus.value else t.timerStatus)
    ensures r.startTime == (if p.startTime.Present? then p.startTime.value else t.startTime)
    ensures r.accumulatedTime == (if p.accumulatedTime.Present? then p.accumulatedTime.value else t.accumulatedTime)
  {
    t.(title := p.title.Over(t.title),
       description := p.description.Over(t.description),
       priority := p.priority.Over(t.priority),
       status := p.status.Over(t.status),
       dueDate := p.dueDate.Over(t.dueDate),
       pinned := p.pinned.Over(t.pinned),
       timerStatus := p.timerStatus.Over(t.timerStatus),
       startTime := p.startTime.Over(t.startTime),
       accumulatedTime := p.accumulatedTime.Over(t.accumulatedTime))
  }

  function TaskId(t: Task): Id { t.id }

  datatype GoalPatch = GoalPatch(
    title: Field<string>,
    description: Field<Option<string>>,
    emoji: Field<string>,
    deadline: Field<Option<Instant>>,
    priority: Field<Priority>,
    status: Field<GoalStatus>,
    subtasks: Field<seq<Subtask>>)

  const NoGoalChanges: GoalPatch := GoalPatch(Absent, Absent, Absent, Absent, Absent, Absent, Absent)

  /** `{ ...g, ...p }` */
  function ApplyGoalPatch(g: Goal, p: GoalPatch): (r: Goal)
    ensures r.id == g.id && r.owner == g.owner && r.createdAt == g.createdAt && r.streak == g.streak
    ensures p.subtasks.Absent? ==> r.subtasks == g.subtasks
    ensures p == NoGoalChanges ==> r == g
    ensures r.title == (if p.title.Present? then p.title.value else g.title)
    ensures r.description == (if p.description.Present? then p.description.value else g.description)
    ensures r.emoji == (if p.emoji.Present? then p.emoji.value else g.emoji)
    ensures r.deadline == (if p.deadline.Present? then p.deadline.value else g.deadline)
    ensures r.priority == (if p.priority.Present? then p.priority.value else g.priority)
    ensures r.status == (if p.status.Present? then p.status.value else g.status)
    ensures r.subtasks == (if p.subtasks.Present? then p.subtasks.value else g.subtasks)
  {
    g.(title := p.title.Over(g.title),
       description := p.description.Over(g.description),
       emoji := p.emoji.Over(g.emoji),
       deadline := p.deadline.Over(g.deadline),
       priority := p.priority.Over(g.priority),
       status := p.status.Over(g.status),
       subtasks := p.subtasks.Over(g.subtasks))
  }

  function GoalId(g: Goal): Id { g.id }

  datatype WatchlistPatch = WatchlistPatch(
    title: Field<string>,
    mediaType: Field<MediaType>,
    posterUrl: Field<Option<string>>,
    status: Field<WatchStatus>,
    year: Field<Option<int>>,
    genre: Field<seq<string>>,
    rating: Field<Option<int>>,
    notes: Field<Option<string>>)

  const NoWatchlistChanges: WatchlistPatch :=
    WatchlistPatch(Absent, Absent, Absent, Absent, Absent, Absent, Absent, Absent)

  /** `{ ...item, ...p }` */
  function ApplyWatchlistPatch(w: WatchlistItem, p: WatchlistPatch): (r: WatchlistItem)
    ensures r.id == w.id && r.owner == w.owner && r.createdAt == w.createdAt && r.watchedAt == w.watchedAt
    ensures p.status.Absent? ==> r.status == w.status
    ensures p == NoWatchlistChanges ==> r == w
    ensures r.title == (if p.title.Present? then p.title.value else w.title)
    ensures r.mediaType == (if p.mediaType.Present? then p.mediaType.value else w.mediaType)
    ensures r.posterUrl == (if p.posterUrl.Present? then p.posterUrl.value else w.posterUrl)
    ensures r.status == (if p.status.Present? then p.status.value else w.status)
    ensures r.year == (if p.year.Present? then p.year.value else w.year)
    ensures r.genre == (if p.genre.Present? then p.genre.value else w.genre)
    ensures r.rating == (if p.rating.Present? then p.rating.value else w.rating)
    ensures r.notes == (if p.notes.Present? then p.notes.value else w.notes)
  {
    w.(title := p.title.Over(w.title),
       mediaType := p.mediaType.Over(w.mediaType),
       posterUrl := p.posterUrl.Over(w.posterUrl),
       status := p.status.Over(w.status),
       year := p.year.Over(w.year),
       genre := p.genre.Over(w.genre),
       rating := p.rating.Over(w.rating),
       notes := p.notes.Over(w.notes))
  }

  function WatchlistId(w: WatchlistItem): Id { w.id }
}
