/**
 * What the route handlers under src/app/api have in common: the session that
 * `auth()` yields, the JSON responses they return, the request bodies the POST
 * handlers read, and the validation that `Model.create` performs before it
 * inserts anything.
 */
module Api {
  import opened Wrappers
  import opened Schema

  /** `session.user` of a signed-in request. */
  datatype SessionUser = SessionUser(id: Id, name: Option<string>, email: Option<string>)

  /** `None` stands for `!session || !session.user`. */
  type Session = Option<SessionUser>

  /**
   * A handler's answer.  `Ok` is `NextResponse.json(value)` (status 200),
   * `Created` the same with status 201, `Failed` an explicit error body and
   * `Thrown` an exception escaping the handler, which the framework answers
   * with status 500.
   */
  datatype Response<+T> = Ok(value: T) | Created(value: T) | Failed(code: int, error: string) | Thrown {
    function Status(): int {
      match this
      case Ok(_) => 200
      case Created(_) => 201
      case Failed(code, _) => code
      case Thrown => 500
    }
  }

  const UnauthorizedError: string := "Unauthorized"
  const TitleRequiredError: string := "Title is required"

  /** `!title` for a string-valued property: absent (or null) and `""` are falsy. */
  predicate Falsy(title: Option<string>) {
    title.None? || title.value == ""
  }

  // ---- enum validation of `Model.create` ------------------------------------

  /** An absent property passes the enum validator; a present one must be a listed name. */
  predicate EnumOk<E>(value: Option<string>, parse: string -> Option<E>) {
    value.None? || parse(value.value).Some?
  }

  /** The enum value stored for a property that passed validation (absent stays absent). */
  function EnumValue<E>(value: Option<string>, parse: string -> Option<E>): (r: Option<E>)
    requires EnumOk(value, parse)
    ensures r.None? <==> value.None?
    ensures r.Some? ==> parse(value.value) == Some(r.value)
  {
    if value.None? then None else parse(value.value)
  }

  // ---- request bodies --------------------------------------------------------

  datatype RecurrenceBody = RecurrenceBody(isRecurring: Option<bool>, frequency: Option<string>)

  /** The properties POST /api/tasks destructures from the body; any other is ignored. */
  datatype TaskBody = TaskBody(
    title: Option<string>,
    description: Option<string>,
    priority: Option<string>,
    dueDate: Option<Instant>,
    recurring: Option<RecurrenceBody>)

  datatype SubtaskBody = SubtaskBody(
    title: Option<string>,
    completed: Option<bool>,
    deadline: Option<Instant>,
    notes: Option<string>)

  /** The properties POST /api/goals destructures from the body. */
  datatype GoalBody = GoalBody(
    title: Option<string>,
    description: Option<string>,
    emoji: Option<string>,
    deadline: Option<Instant>,
    priority: Option<string>,
    subtasks: Option<seq<SubtaskBody>>)

  /** The properties POST /api/watchlist destructures from the body. */
  datatype WatchlistBody = WatchlistBody(
    title: Option<string>,
    mediaType: Option<string>,
    notes: Option<string>,
    genre: Option<seq<string>>,
    year: Option<int>,
    status: Option<string>,
    posterUrl: Option<string>,
    trailerUrl: Option<string>)

  // ---- Task.create ------------------------------------------------------------

  /** The schema validators of the Task model on a body's properties. */
  predicate TaskBodyValid(body: TaskBody) {
    && !Falsy(body.title)
    && EnumOk(body.priority, ParsePriority)
    && (body.recurring.Some? ==> EnumOk(body.recurring.value.frequency, ParseFrequency))
  }

  /**
   * The outcome of POST /api/tasks before anything is stored: 401 without a
   * session, 400 for a falsy title, an exception when a validator rejects the
   * document, and otherwise the created task owned by the caller.
   */
  function PostTask(session: Session, body: TaskBody, id: Id, now: Instant): (r: Response<Task>)
    ensures r == Failed(401, UnauthorizedError) <==> session.None?
    ensures session.Some? ==> (r == Failed(400, TitleRequiredError) <==> Falsy(body.title))
    ensures r.Thrown? <==> session.Some? && !Falsy(body.title) && !TaskBodyValid(body)
    ensures r.Created? <==> session.Some? && TaskBodyValid(body)
    ensures r.Created? ==> && r.value.owner == session.value.id && r.value.id == id
                           && r.value.title == body.title.value && r.value.title != ""
                           && r.value.description == body.description && r.value.dueDate == body.dueDate
                           && r.value.createdAt == now
    ensures r.Created? ==> && r.value.status == Pending && !r.value.pinned
                           && r.value.timerStatus == Idle && r.value.accumulatedTime == Some(0)
    ensures r.Created? && body.priority.None? ==> r.value.priority == Medium
    ensures r.Created? && body.priority.Some? ==> PriorityName(r.value.priority) == body.priority.value
    ensures r.Created? ==>
              (r.value.recurring.isRecurring <==> body.recurring.Some? && body.recurring.value.isRecurring == Some(true))
    ensures r.Created? && body.recurring.Some? && body.recurring.value.frequency.Some? ==>
              FrequencyName(r.value.recurring.frequency) == body.recurring.value.frequency.value
    ensures r.Created? && (body.recurring.None? || body.recurring.value.frequency.None?) ==>
              FrequencyName(r.value.recurring.frequency) == "none"
  {
    if session.None? then Failed(401, UnauthorizedError)
    else if Falsy(body.title) then Failed(400, TitleRequiredError)
    else if !TaskBodyValid(body) then Thrown
    else
      var recurring := match body.recurring
        case None => None
        case Some(rb) => Some(RecurrenceInput(rb.isRecurring, EnumValue(rb.frequency, ParseFrequency)));
      Created(NewTask(id, session.value.id, body.title.value, body.description,
                      EnumValue(body.priority, ParsePriority), body.dueDate, recurring, now))
  }

  // ---- Goal.create -------------------------------------------------------------

  /** Every sub-task's `title` is required, so it may be neither absent nor `""`. */
  predicate SubtasksValid(subtasks: seq<SubtaskBody>) {
    forall i :: 0 <= i < |subtasks| ==> !Falsy(subtasks[i].title)
  }

  predicate GoalBodyValid(body: GoalBody) {
    && !Falsy(body.title)
    && EnumOk(body.priority, ParsePriority)
    && (body.subtasks.Some? ==> SubtasksValid(body.subtasks.value))
  }

  /** A validated sub-task body with its schema default (`completed: false`). */
  function SubtaskOf(b: SubtaskBody): (s: Subtask)
    requires !Falsy(b.title)
    ensures s.title == b.title.value && (s.completed <==> b.completed == Some(true))
    ensures s.deadline == b.deadline && s.notes == b.notes
  {
    Subtask(b.title.value, b.completed.GetOr(false), b.deadline, b.notes)
  }

  /** `subtasks || []`, each element cast to a sub-task, in the order given. */
  function SubtasksOf(subtasks: Option<seq<SubtaskBody>>): (r: seq<Subtask>)
    requires subtasks.Some? ==> SubtasksValid(subtasks.value)
    ensures subtasks.None? ==> r == []
    ensures subtasks.Some? ==> |r| == |subtasks.value|
    ensures subtasks.Some? ==> forall i :: 0 <= i < |r| ==> r[i].title == subtasks.value[i].title.value
    ensures subtasks.Some? ==> forall i :: 0 <= i < |r| ==> r[i] == SubtaskOf(subtasks.value[i])
  {
    if subtasks.None? then [] else seq(|subtasks.value|, i requires 0 <= i < |subtasks.value| => SubtaskOf(subtasks.value[i]))
  }

  /** The outcome of POST /api/goals before anything is stored. */
  function PostGoal(session: Session, body: GoalBody, id: Id, now: Instant): (r: Response<Goal>)
    ensures r == Failed(401, UnauthorizedError) <==> session.None?
    ensures session.Some? ==> (r == Failed(400, TitleRequiredError) <==> Falsy(body.title))
    ensures r.Thrown? <==> session.Some? && !Falsy(body.title) && !GoalBodyValid(body)
    ensures r.Created? <==> session.Some? && GoalBodyValid(body)
    ensures r.Created? ==> && r.value.owner == session.value.id && r.value.id == id
                           && r.value.title == body.title.value && r.value.status == Active
                           && r.value.streak == 0 && r.value.createdAt == now
    ensures r.Created? && body.subtasks.None? ==> r.value.subtasks == []
    ensures r.Created? && body.subtasks.Some? ==> |r.value.subtasks| == |body.subtasks.value|
    ensures r.Created? ==> r.value.subtasks == SubtasksOf(body.subtasks)
    ensures r.Created? && body.emoji.None? ==> r.value.emoji == DefaultEmoji
    ensures r.Created? && body.emoji.Some? ==> r.value.emoji == body.emoji.value
    ensures r.Created? ==> r.value.description == body.description && r.value.deadline == body.deadline
    ensures r.Created? && body.priority.None? ==> r.value.priority == Medium
    ensures r.Created? && body.priority.Some? ==> PriorityName(r.value.priority) == body.priority.value
  {
    if session.None? then Failed(401, UnauthorizedError)
    else if Falsy(body.title) then Failed(400, TitleRequiredError)
    else if !GoalBodyValid(body) then Thrown
    else
      Created(NewGoal(id, session.value.id, body.title.value, body.description, body.emoji, body.deadline,
                      EnumValue(body.priority, ParsePriority), SubtasksOf(body.subtasks), now))
  }

  // ---- WatchlistItem.create ------------------------------------------------------

  predicate WatchlistBodyValid(body: WatchlistBody) {
    && !Falsy(body.title)
    && EnumOk(body.mediaType, ParseMediaType)
    && EnumOk(body.status, ParseWatchStatus)
  }

  /** The outcome of POST /api/watchlist before anything is stored. */
  function PostWatchlistItem(session: Session, body: WatchlistBody, id: Id, now: Instant): (r: Response<WatchlistItem>)
    ensures r == Failed(401, UnauthorizedError) <==> session.None?
    ensures session.Some? ==> (r == Failed(400, TitleRequiredError) <==> Falsy(body.title))
    ensures r.Thrown? <==> session.Some? && !Falsy(body.title) && !WatchlistBodyValid(body)
    ensures r.Created? <==> session.Some? && WatchlistBodyValid(body)
    ensures r.Created? ==> && r.value.owner == session.value.id && r.value.id == id
                           && r.value.title == body.title.value && r.value.rating == None
                           && r.value.createdAt == now
    ensures r.Created? && body.mediaType.None? ==> r.value.mediaType == Movie
    ensures r.Created? && body.mediaType.Some? ==> MediaTypeName(r.value.mediaType) == body.mediaType.value
    ensures r.Created? && body.status.None? ==> r.value.status == NotStarted
    ensures r.Created? && body.status.Some? ==> WatchStatusName(r.value.status) == body.status.value
    ensures r.Created? ==> r.value.notes == body.notes && r.value.genre == body.genre.GetOr([]) && r.value.year == body.year
    ensures r.Created? ==> r.value.posterUrl == body.posterUrl && r.value.trailerUrl == body.trailerUrl
  {
    if session.None? then Failed(401, UnauthorizedError)
    else if Falsy(body.title) then Failed(400, TitleRequiredError)
    else if !WatchlistBodyValid(body) then Thrown
    else
      Created(NewWatchlistItem(id, session.value.id, body.title.value, EnumValue(body.mediaType, ParseMediaType),
                               body.notes, body.genre.GetOr([]), body.year, EnumValue(body.status, ParseWatchStatus),
                               body.posterUrl, body.trailerUrl, now))
  }
}
