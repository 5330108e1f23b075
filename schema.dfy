/**
 * The five Mongoose models (the files under src/models): enumerations with their stored
 * names, the record types, and the defaults the schemas apply on create.
 */
module Schema {
  import opened Wrappers

  /** A document id (`ObjectId`, serialised as a hex string). */
  type Id = string
  /** An instant, in milliseconds since the epoch (`Date.getTime()`). */
  type Instant = int

  // ---- Task ----------------------------------------------------------------

  datatype Priority = Low | Medium | High

  function PriorityName(p: Priority): string {
    match p
    case Low => "low"
    case Medium => "medium"
    case High => "high"
  }

  /** The enum check Mongoose applies to `priority`; the inverse of `PriorityName`. */
  function ParsePriority(s: string): (r: Option<Priority>)
    ensures r.Some? ==> PriorityName(r.value) == s
    ensures r.None? ==> forall p: Priority :: PriorityName(p) != s
  {
    if s == "low" then Some(Low)
    else if s == "medium" then Some(Medium)
    else if s == "high" then Some(High)
    else None
  }

  datatype TaskStatus = Pending | Completed

  function TaskStatusName(s: TaskStatus): string {
    match s
    case Pending => "pending"
    case Completed => "completed"
  }

  datatype Frequency = Daily | Weekly | Monthly | NoRepeat

  function FrequencyName(f: Frequency): string {
    match f
    case Daily => "daily"
    case Weekly => "weekly"
    case Monthly => "monthly"
    case NoRepeat => "none"
  }

  /** The enum check Mongoose applies to `recurring.frequency`. */
  function ParseFrequency(s: string): (r: Option<Frequency>)
    ensures r.Some? ==> FrequencyName(r.value) == s
    ensures r.None? ==> forall f: Frequency :: FrequencyName(f) != s
  {
    if s == "daily" then Some(Daily)
    else if s == "weekly" then Some(Weekly)
    else if s == "monthly" then Some(Monthly)
    else if s == "none" then Some(NoRepeat)
    else None
  }

  datatype Recurrence = Recurrence(isRecurring: bool, frequency: Frequency)

  datatype TimerStatus = Idle | Running | Paused

  /**
   * A task document.  `accumulatedTime` is optional because the client reads it
   * as `task.accumulatedTime || 0`; a value that is not a number is `None`.
   */
  datatype Task = Task(
    id: Id,
    owner: Id,
    title: string,
    description: Option<string>,
    priority: Priority,
    status: TaskStatus,
    dueDate: Option<Instant>,
    completedAt: Option<Instant>,
    tags: seq<string>,
    pinned: bool,
    recurring: Recurrence,
    durationMinutes: Option<int>,
    timerStatus: TimerStatus,
    startTime: Option<Instant>,
    accumulatedTime: Option<int>,
    createdAt: Instant,
    updatedAt: Instant)

  /** The `recurring` sub-object of a request body; a missing property takes its schema default. */
  datatype RecurrenceInput = RecurrenceInput(isRecurring: Option<bool>, frequency: Option<Frequency>)

  /**
   * `Task.create(...)` for a document whose other properties are absent: the
   * schema defaults fill priority, status, pinned, recurrence and the timer.
   */
  function NewTask(id: Id, owner: Id, title: string, description: Option<string>, priority: Option<Priority>,
                   dueDate: Option<Instant>, recurring: Option<RecurrenceInput>, now: Instant): (t: Task)
    ensures t.id == id && t.owner == owner && t.title == title && t.createdAt == now
    ensures t.priority == (if priority.Some? then priority.value else Medium)
    ensures t.status == Pending && !t.pinned && t.tags == []
    ensures t.timerStatus == Idle && t.startTime == None && t.accumulatedTime == Some(0)
    ensures t.description == description && t.dueDate == dueDate && t.completedAt == None
    ensures t.recurring.isRecurring <==> recurring.Some? && recurring.value.isRecurring == Some(true)
    ensures recurring.Some? && recurring.value.frequency.Some? ==> t.recurring.frequency == recurring.value.frequency.value
    ensures recurring.None? || recurring.value.frequency.None? ==> FrequencyName(t.recurring.frequency) == "none"
  {
    var rec := match recurring
      case None => Recurrence(false, NoRepeat)
      case Some(r) => Recurrence(r.isRecurring.GetOr(false), r.frequency.GetOr(NoRepeat));
    Task(id, owner, title, description, priority.GetOr(Medium), Pending, dueDate, None, [], false,
         rec, None, Idle, None, Some(0), now, now)
  }

  // ---- Goal ----------------------------------------------------------------

  /** `completed` is the stored name of `Achieved`. */
  datatype GoalStatus = Active | Achieved | Archived

  function GoalStatusName(s: GoalStatus): string {
    match s
    case Active => "active"
    case Achieved => "completed"
    case Archived => "archived"
  }

  datatype Subtask = Subtask(title: string, completed: bool, deadline: Option<Instant>, notes: Option<string>)

  /** A sub-task the client builds: `{ title, completed: false }`. */
  function NewSubtask(title: string): (s: Subtask)
    ensures s.title == title && !s.completed
  {
    Subtask(title, false, None, None)
  }

  datatype Goal = Goal(
    id: Id,
    owner: Id,
    title: string,
    description: Option<string>,
    emoji: string,
    deadline: Option<Instant>,
    priority: Priority,
    status: GoalStatus,
    subtasks: seq<Subtask>,
    streak: int,
    completedAt: Option<Instant>,
    createdAt: Instant,
    updatedAt: Instant)

  const DefaultEmoji: string := "\U{1F3AF}"

  /** `Goal.create(...)`: emoji, priority, status and streak take their defaults. */
  function NewGoal(id: Id, owner: Id, title: string, description: Option<string>, emoji: Option<string>,
                   deadline: Option<Instant>, priority: Option<Priority>, subtasks: seq<Subtask>, now: Instant): (g: Goal)
    ensures g.id == id && g.owner == owner && g.title == title && g.subtasks == subtasks
    ensures g.description == description && g.deadline == deadline
    ensures g.emoji == (if emoji.Some? then emoji.value else DefaultEmoji)
    ensures g.priority == (if priority.Some? then priority.value else Medium)
    ensures g.status == Active && g.streak == 0 && g.completedAt == None && g.createdAt == now
  {
    Goal(id, owner, title, description, emoji.GetOr(DefaultEmoji), deadline, priority.GetOr(Medium), Active,
         subtasks, 0, None, now, now)
  }

  // ---- WatchlistItem -------------------------------------------------------

  datatype MediaType = Movie | Show

  function MediaTypeName(t: MediaType): string {
    match t
    case Movie => "movie"
    case Show => "show"
  }

  function ParseMediaType(s: string): (r: Option<MediaType>)
    ensures r.Some? ==> MediaTypeName(r.value) == s
    ensures r.None? ==> forall t: MediaType :: MediaTypeName(t) != s
  {
    if s == "movie" then Some(Movie) else if s == "show" then Some(Show) else None
  }

  datatype WatchStatus = NotStarted | Watching | Finished

  function WatchStatusName(s: WatchStatus): string {
    match s
    case NotStarted => "not-started"
    case Watching => "watching"
    case Finished => "finished"
  }

  function ParseWatchStatus(s: string): (r: Option<WatchStatus>)
    ensures r.Some? ==> WatchStatusName(r.value) == s
    ensures r.None? ==> forall w: WatchStatus :: WatchStatusName(w) != s
  {
    if s == "not-started" then Some(NotStarted)
    else if s == "watching" then Some(Watching)
    else if s == "finished" then Some(Finished)
    else None
  }

  datatype WatchlistItem = WatchlistItem(
    id: Id,
    owner: Id,
    title: string,
    mediaType: MediaType,
    notes: Option<string>,
    genre: seq<string>,
    year: Option<int>,
    rating: Option<int>,
    status: WatchStatus,
    posterUrl: Option<string>,
    trailerUrl: Option<string>,
    watchedAt: Option<Instant>,
    createdAt: Instant,
    updatedAt: Instant)

  /** The `min: 0, max: 10` validator on `rating`. */
  predicate RatingValid(rating: Option<int>) {
    rating.Some? ==> 0 <= rating.value <= 10
  }

  /** `WatchlistItem.create(...)` without a rating: type and status take their defaults. */
  function NewWatchlistItem(id: Id, owner: Id, title: string, mediaType: Option<MediaType>, notes: Option<string>,
                            genre: seq<string>, year: Option<int>, status: Option<WatchStatus>,
                            posterUrl: Option<string>, trailerUrl: Option<string>, now: Instant): (w: WatchlistItem)
    ensures w.id == id && w.owner == owner && w.title == title && w.createdAt == now
    ensures w.mediaType == (if mediaType.Some? then mediaType.value else Movie)
    ensures w.status == (if status.Some? then status.value else NotStarted)
    ensures w.notes == notes && w.genre == genre && w.year == year
    ensures w.posterUrl == posterUrl && w.trailerUrl == trailerUrl
    ensures w.rating == None && RatingValid(w.rating) && w.watchedAt == None
  {
    WatchlistItem(id, owner, title, mediaType.GetOr(Movie), notes, genre, year, None, status.GetOr(NotStarted),
                  posterUrl, trailerUrl, None, now, now)
  }

  // ---- Activity ------------------------------------------------------------

  datatype EntityType = TaskEntity | GoalEntity | WatchlistEntity | UserEntity

  function EntityTypeName(e: EntityType): string {
    match e
    case TaskEntity => "task"
    case GoalEntity => "goal"
    case WatchlistEntity => "watchlist"
    case UserEntity => "user"
  }

  /** The free-form `details` object, in the shapes the routes write: `{title}` or `{title, type}`. */
  datatype Details = Details(title: Option<string>, mediaType: Option<string>)

  /** An activity record; `action` is a free string, not an enumeration. */
  datatype Activity = Activity(
    id: Id,
    owner: Id,
    action: string,
    entityType: EntityType,
    entityId: Id,
    details: Details,
    createdAt: Instant)

  // ---- User ----------------------------------------------------------------

  datatype Theme = Light | Dark | Amoled | Auto

  function ThemeName(t: Theme): string {
    match t
    case Light => "light"
    case Dark => "dark"
    case Amoled => "amoled"
    case Auto => "auto"
  }

  /**
   * The `preferences` sub-document as stored.  Every property is optional
   * because the preferences route replaces the whole object with the request's,
   * and an update runs no enum validator, so `theme` is kept as a string.
   */
  datatype Preferences = Preferences(
    theme: Option<string>,
    compactView: Option<bool>,
    showTimestamps: Option<bool>,
    motivationalQuotes: Option<bool>,
    animationsEnabled: Option<bool>)

  /** The preference defaults of the User schema. */
  function DefaultPreferences(): (p: Preferences)
    ensures p.theme == Some(ThemeName(Auto))
    ensures p.compactView == Some(false)
    ensures p.showTimestamps == Some(true) && p.motivationalQuotes == Some(true) && p.animationsEnabled == Some(true)
  {
    Preferences(Some("auto"), Some(false), Some(true), Some(true), Some(true))
  }

  datatype User = User(
    id: Id,
    name: Option<string>,
    email: string,
    image: Option<string>,
    preferences: Option<Preferences>,
    onboarded: bool)

  /** A user as the schema creates it: default preferences, not onboarded. */
  function NewUser(id: Id, name: Option<string>, email: string): (u: User)
    ensures u.id == id && u.email == email && !u.onboarded
    ensures u.preferences == Some(DefaultPreferences())
  {
    User(id, name, email, None, Some(DefaultPreferences()), false)
  }

  /** The `unique: true` index on `email`. */
  ghost predicate EmailsUnique(users: seq<User>) {
    forall i, j :: 0 <= i < j < |users| ==> users[i].email != users[j].email
  }
}
