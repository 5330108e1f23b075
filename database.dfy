/**
 * The handlers that write: the three POST creates, the account delete and the
 * preferences update.  The five MongoDB collections are the fields of a
 * `Store`, each the sequence of its documents in insertion order; a handler
 * replaces the fields it writes.  Document ids and the clock are parameters.
 */
module Database {
  import opened Wrappers
  import opened Seqs
  import opened Schema
  import opened Api
  import opened Queries

  function TaskOwner(t: Task): Id { t.owner }
  function GoalOwner(g: Goal): Id { g.owner }
  function ItemOwner(w: WatchlistItem): Id { w.owner }
  function ActivityOwner(a: Activity): Id { a.owner }

  const DeletedMessage: string := "Account and data deleted successfully"

  function WithPreferences(u: User, preferences: Option<Preferences>): User {
    u.(preferences := preferences)
  }

  /** `User.findByIdAndUpdate(uid, { $set: { preferences } })`: the whole object is replaced. */
  function SetPreferences(users: seq<User>, uid: Id, preferences: Option<Preferences>): (r: seq<User>)
    ensures |r| == |users|
    ensures forall i :: 0 <= i < |r| ==> r[i].id == users[i].id && r[i].email == users[i].email
    ensures forall i :: 0 <= i < |r| && users[i].id == uid ==> r[i].preferences == preferences
    ensures forall i :: 0 <= i < |r| && users[i].id != uid ==> r[i] == users[i]
    ensures EmailsUnique(users) ==> EmailsUnique(r)
  {
    UpdateById(users, UserId, uid, WithPreferences, preferences)
  }

  class Store {
    var tasks: seq<Task>
    var goals: seq<Goal>
    var watchlist: seq<WatchlistItem>
    var activities: seq<Activity>
    var users: seq<User>

    constructor ()
      ensures tasks == [] && goals == [] && watchlist == [] && activities == [] && users == []
    {
      tasks, goals, watchlist, activities, users := [], [], [], [], [];
    }

    /**
     * POST /api/tasks: on success exactly one task owned by the caller and
     * exactly one `task_created` activity naming it; on any failure nothing.
     */
    method CreateTask(session: Session, body: TaskBody, taskId: Id, activityId: Id, now: Instant)
      returns (r: Response<Task>)
      modifies this`tasks, this`activities
      ensures r == PostTask(session, body, taskId, now)
      ensures !r.Created? ==> tasks == old(tasks) && activities == old(activities)
      ensures r.Created? ==> tasks == old(tasks) + [r.value]
      ensures r.Created? ==> (activities == old(activities) +
                [Activity(activityId, session.value.id, "task_created", TaskEntity, taskId,
                          Details(Some(body.title.value), None), now)])
    {
      r := PostTask(session, body, taskId, now);
      if r.Created? {
        tasks := tasks + [r.value];
        activities := activities + [Activity(activityId, session.value.id, "task_created", TaskEntity, taskId,
                                             Details(Some(body.title.value), None), now)];
      }
    }

    /** POST /api/goals: one goal and one `goal_created` activity, or nothing. */
    method CreateGoal(session: Session, body: GoalBody, goalId: Id, activityId: Id, now: Instant)
      returns (r: Response<Goal>)
      modifies this`goals, this`activities
      ensures r == PostGoal(session, body, goalId, now)
      ensures !r.Created? ==> goals == old(goals) && activities == old(activities)
      ensures r.Created? ==> goals == old(goals) + [r.value]
      ensures r.Created? ==> (activities == old(activities) +
                [Activity(activityId, session.value.id, "goal_created", GoalEntity, goalId,
                          Details(Some(body.title.value), None), now)])
    {
      r := PostGoal(session, body, goalId, now);
      if r.Created? {
        goals := goals + [r.value];
        activities := activities + [Activity(activityId, session.value.id, "goal_created", GoalEntity, goalId,
                                             Details(Some(body.title.value), None), now)];
      }
    }

    /** POST /api/watchlist: one item and one `watchlist_added` activity with `{ title, type }`, or nothing. */
    method CreateWatchlistItem(session: Session, body: WatchlistBody, itemId: Id, activityId: Id, now: Instant)
      returns (r: Response<WatchlistItem>)
      modifies this`watchlist, this`activities
      ensures r == PostWatchlistItem(session, body, itemId, now)
      ensures !r.Created? ==> watchlist == old(watchlist) && activities == old(activities)
      ensures r.Created? ==> watchlist == old(watchlist) + [r.value]
      ensures r.Created? ==> (activities == old(activities) +
                [Activity(activityId, session.value.id, "watchlist_added", WatchlistEntity, itemId,
                          Details(Some(body.title.value), body.mediaType), now)])
    {
      r := PostWatchlistItem(session, body, itemId, now);
      if r.Created? {
        watchlist := watchlist + [r.value];
        activities := activities + [Activity(activityId, session.value.id, "watchlist_added", WatchlistEntity,
                                             itemId, Details(Some(body.title.value), body.mediaType), now)];
      }
    }

    /**
     * DELETE /api/user/delete: 401 and nothing removed without a session;
     * otherwise every document of the caller in the four collections and the
     * caller's user record go, and nothing else.
     */
    method DeleteAccount(session: Session) returns (r: Response<string>)
      modifies this`tasks, this`goals, this`watchlist, this`activities, this`users
      ensures session.None? ==> r == Failed(401, UnauthorizedError)
      ensures session.None? ==> tasks == old(tasks) && goals == old(goals) && watchlist == old(watchlist)
      ensures session.None? ==> activities == old(activities) && users == old(users)
      ensures session.Some? ==> r == Ok(DeletedMessage)
      ensures session.Some? ==> && tasks == RemoveById(old(tasks), TaskOwner, session.value.id)
                                && goals == RemoveById(old(goals), GoalOwner, session.value.id)
                                && watchlist == RemoveById(old(watchlist), ItemOwner, session.value.id)
                                && activities == RemoveById(old(activities), ActivityOwner, session.value.id)
                                && users == RemoveById(old(users), UserId, session.value.id)
    {
      if session.None? {
        return Failed(401, UnauthorizedError);
      }
      var uid := session.value.id;
      tasks := RemoveById(tasks, TaskOwner, uid);
      goals := RemoveById(goals, GoalOwner, uid);
      watchlist := RemoveById(watchlist, ItemOwner, uid);
      activities := RemoveById(activities, ActivityOwner, uid);
      users := RemoveById(users, UserId, uid);
      r := Ok(DeletedMessage);
    }

    /**
     * PATCH /api/user/preferences: 401 without a session; the body's
     * `preferences` replaces the stored object; the answer is the updated
     * user's preferences, and a missing user makes `user.preferences` throw.
     */
    method UpdatePreferences(session: Session, preferences: Option<Preferences>) returns (r: Response<Preferences>)
      modifies this`users
      ensures session.None? ==> r == Failed(401, UnauthorizedError) && users == old(users)
      ensures session.Some? && FindUser(old(users), session.value.id).None? ==> r == Thrown && users == old(users)
      ensures session.Some? && FindUser(old(users), session.value.id).Some? ==>
                r == Ok(Loaded(preferences)) && users == SetPreferences(old(users), session.value.id, preferences)
    {
      if session.None? {
        return Failed(401, UnauthorizedError);
      }
      var uid := session.value.id;
      if FindUser(users, uid).None? {
        return Thrown;
      }
      users := SetPreferences(users, uid, preferences);
      r := Ok(Loaded(preferences));
    }
  }

  // ---- what the writes mean for the reads ----------------------------------------------

  /**
   * A preferences update is read back whole: the next read answers what the
   * update answered, whatever the user's preferences were before.
   */
  lemma PreferencesReadBack(session: SessionUser, users: seq<User>, preferences: Option<Preferences>)
    requires FindUser(users, session.id).Some?
    ensures GetPreferences(Some(session), SetPreferences(users, session.id, preferences)) == Ok(Loaded(preferences))
  {
    var updated := SetPreferences(users, session.id, preferences);
    var k :| 0 <= k < |users| && users[k] == FindUser(users, session.id).value;
    assert updated[k].id == session.id;
    var v := FindUser(updated, session.id).value;
    SetPreferencesEverywhere(users, session.id, preferences, v);
  }

  /** Every user the replace leaves with the id carries the new preferences. */
  lemma SetPreferencesEverywhere(users: seq<User>, uid: Id, preferences: Option<Preferences>, v: User)
    requires v in SetPreferences(users, uid, preferences) && v.id == uid
    ensures v.preferences == preferences
  {
    var updated := SetPreferences(users, uid, preferences);
    var j :| 0 <= j < |updated| && updated[j] == v;
    assert users[j].id == uid;
  }

  /** After the account delete the caller's export is empty. */
  lemma DeletedAccountExportsNothing(session: SessionUser, tasks: seq<Task>, goals: seq<Goal>,
                                     watchlist: seq<WatchlistItem>, activities: seq<Activity>, now: Instant)
    ensures var r := Export(Some(session), RemoveById(tasks, TaskOwner, session.id), RemoveById(goals, GoalOwner, session.id),
                            RemoveById(watchlist, ItemOwner, session.id), RemoveById(activities, ActivityOwner, session.id), now);
            r.Ok? && r.value.tasks == [] && r.value.goals == [] && r.value.watchlist == [] && r.value.history == []
  {
    var uid := session.id;
    FilterNone(RemoveById(tasks, TaskOwner, uid), OwnsTask(uid));
    FilterNone(RemoveById(goals, GoalOwner, uid), OwnsGoal(uid));
    FilterNone(RemoveById(watchlist, ItemOwner, uid), OwnsItem(uid));
    FilterNone(RemoveById(activities, ActivityOwner, uid), OwnsActivity(uid));
  }

  /** The account delete leaves another user's export exactly as it was. */
  lemma DeleteSparesOthers(uid: Id, other: SessionUser, tasks: seq<Task>, goals: seq<Goal>,
                           watchlist: seq<WatchlistItem>, activities: seq<Activity>, now: Instant)
    requires other.id != uid
    ensures Export(Some(other), RemoveById(tasks, TaskOwner, uid), RemoveById(goals, GoalOwner, uid),
                   RemoveById(watchlist, ItemOwner, uid), RemoveById(activities, ActivityOwner, uid), now)
            == Export(Some(other), tasks, goals, watchlist, activities, now)
  {
    FilterAfterRemove(tasks, TaskOwner, uid, OwnsTask(other.id));
    FilterAfterRemove(goals, GoalOwner, uid, OwnsGoal(other.id));
    FilterAfterRemove(watchlist, ItemOwner, uid, OwnsItem(other.id));
    FilterAfterRemove(activities, ActivityOwner, uid, OwnsActivity(other.id));
  }

  /** A created task is listed to its owner by the next GET /api/tasks. */
  lemma CreatedTaskListed(session: SessionUser, tasks: seq<Task>, body: TaskBody, taskId: Id, now: Instant)
    requires PostTask(Some(session), body, taskId, now).Created?
    ensures var t := PostTask(Some(session), body, taskId, now).value;
            var listed := ListTasks(Some(session), tasks + [t]);
            listed.Ok? && t in listed.value && |listed.value| == Count(tasks, OwnsTask(session.id)) + 1
  {
    var t := PostTask(Some(session), body, taskId, now).value;
    CountSnoc(tasks, t, OwnsTask(session.id));
  }

  /** The unique index on `email` survives the account delete (`SetPreferences` keeps it too). */
  lemma {:induction false} DeleteKeepsEmailsUnique(users: seq<User>, uid: Id)
    requires EmailsUnique(users)
    ensures EmailsUnique(RemoveById(users, UserId, uid))
  {
    if users != [] {
      var rest := users[1..];
      assert EmailsUnique(rest) by {
        forall i, j | 0 <= i < j < |rest| ensures rest[i].email != rest[j].email {
          assert rest[i] == users[i + 1] && rest[j] == users[j + 1];
        }
      }
      DeleteKeepsEmailsUnique(rest, uid);
      var tail := RemoveById(rest, UserId, uid);
      if users[0].id != uid {
        assert RemoveById(users, UserId, uid) == [users[0]] + tail;
        forall i | 0 <= i < |tail| ensures tail[i].email != users[0].email {
          assert tail[i] in multiset(rest);
          var k :| 0 <= k < |rest| && rest[k] == tail[i];
          assert rest[k] == users[k + 1];
        }
        ConsKeepsEmailsUnique(users[0], tail);
      } else {
        assert RemoveById(users, UserId, uid) == tail;
      }
    }
  }

  /** A user whose email no user of a unique list has can head that list. */
  lemma ConsKeepsEmailsUnique(u: User, users: seq<User>)
    requires EmailsUnique(users)
    requires forall i :: 0 <= i < |users| ==> users[i].email != u.email
    ensures EmailsUnique([u] + users)
  {
    var all := [u] + users;
    forall i, j | 0 <= i < j < |all| ensures all[i].email != all[j].email {
      assert all[j] == users[j - 1];
      if i > 0 {
        assert all[i] == users[i - 1];
      }
    }
  }
}
