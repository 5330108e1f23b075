/**
 * The history page (src/app/history/page.tsx): grouping the fetched
 * activities by calendar day, and the icon and sentence shown for each.
 */
module HistoryPage {
  import opened Wrappers
  import opened Schema
  import opened Seqs
  import opened Text

  function DateIs(dateOf: Instant -> string, key: string): Activity -> bool {
    (a: Activity) => dateOf(a.createdAt) == key
  }

  /** Reference definition: the day labels in order of first appearance. */
  function FirstSeenKeys(activities: seq<Activity>, dateOf: Instant -> string): seq<string>
    decreases |activities|
  {
    if activities == [] then []
    else
      var keys := FirstSeenKeys(activities[..|activities| - 1], dateOf);
      var key := dateOf(activities[|activities| - 1].createdAt);
      if key in keys then keys else keys + [key]
  }

  /** Some activity falls on the day labelled `key`. */
  ghost predicate LabelOccurs(activities: seq<Activity>, dateOf: Instant -> string, key: string) {
    exists i :: 0 <= i < |activities| && dateOf(activities[i].createdAt) == key
  }

  /** The first-seen labels are distinct and are exactly the labels of the activities. */
  lemma {:induction false} FirstSeenKeysExact(activities: seq<Activity>, dateOf: Instant -> string)
    ensures forall i, j :: 0 <= i < j < |FirstSeenKeys(activities, dateOf)| ==>
      FirstSeenKeys(activities, dateOf)[i] != FirstSeenKeys(activities, dateOf)[j]
    ensures forall k :: k in FirstSeenKeys(activities, dateOf) <==> LabelOccurs(activities, dateOf, k)
    decreases |activities|
  {
    if activities != [] {
      var init := activities[..|activities| - 1];
      FirstSeenKeysExact(init, dateOf);
      forall k | LabelOccurs(init, dateOf, k) ensures LabelOccurs(activities, dateOf, k) {
        var i :| 0 <= i < |init| && dateOf(init[i].createdAt) == k;
        assert activities[i] == init[i];
      }
      forall k | LabelOccurs(activities, dateOf, k) ensures k in FirstSeenKeys(activities, dateOf) {
        var i :| 0 <= i < |activities| && dateOf(activities[i].createdAt) == k;
        if i < |init| {
          assert init[i] == activities[i];
          assert LabelOccurs(init, dateOf, k);
        }
      }
    }
  }

  /**
   * groupActivitiesByDate: one pass that appends each activity to the list of
   * its day label, creating the list on first sight.  `dateOf` stands for the
   * locale formatting `toLocaleDateString("en-US", { weekday, month, day })`.
   */
  method GroupActivitiesByDate(activities: seq<Activity>, dateOf: Instant -> string)
    returns (keys: seq<string>, groups: map<string, seq<Activity>>)
    ensures keys == FirstSeenKeys(activities, dateOf)
    ensures forall k :: k in groups <==> k in keys
    ensures forall k :: k in groups ==> groups[k] == Filter(activities, DateIs(dateOf, k))
  {
    keys := [];
    groups := map[];
    var n := 0;
    while n < |activities|
      invariant 0 <= n <= |activities|
      invariant Grouped(activities[..n], dateOf, keys, groups)
    {
      ghost var keys0, groups0 := keys, groups;
      keys, groups := AddToGroup(keys, groups, activities[n], dateOf);
      GroupNext(activities, n, dateOf, keys0, groups0, keys, groups);
      n := n + 1;
    }
    GroupedAll(activities, dateOf, keys, groups);
  }

  /** The loop's step, on the prefix `activities[..n]`. */
  lemma GroupNext(activities: seq<Activity>, n: nat, dateOf: Instant -> string,
                  keys: seq<string>, groups: map<string, seq<Activity>>,
                  keys': seq<string>, groups': map<string, seq<Activity>>)
    requires n < |activities|
    requires Grouped(activities[..n], dateOf, keys, groups)
    requires var d := dateOf(activities[n].createdAt);
      keys' == (if d in groups then keys else keys + [d])
      && groups' == groups[d := (if d in groups then groups[d] else []) + [activities[n]]]
    ensures Grouped(activities[..n + 1], dateOf, keys', groups')
  {
    assert activities[..n + 1] == activities[..n] + [activities[n]];
    GroupStep(activities[..n], activities[n], dateOf, keys, groups, keys', groups');
  }

  /** The loop's exit: the invariant on the whole input is the method's contract. */
  lemma GroupedAll(activities: seq<Activity>, dateOf: Instant -> string,
                   keys: seq<string>, groups: map<string, seq<Activity>>)
    requires Grouped(activities[..|activities|], dateOf, keys, groups)
    ensures keys == FirstSeenKeys(activities, dateOf)
    ensures forall k :: k in groups <==> k in keys
    ensures forall k :: k in groups ==> groups[k] == Filter(activities, DateIs(dateOf, k))
  {
    assert activities[..|activities|] == activities;
  }

  /** One iteration: `if (!groups[date]) groups[date] = []; groups[date].push(activity)`. */
  method AddToGroup(keys: seq<string>, groups: map<string, seq<Activity>>, activity: Activity, dateOf: Instant -> string)
    returns (keys': seq<string>, groups': map<string, seq<Activity>>)
    ensures keys' == if dateOf(activity.createdAt) in groups then keys else keys + [dateOf(activity.createdAt)]
    ensures groups' == groups[dateOf(activity.createdAt) :=
                        (if dateOf(activity.createdAt) in groups then groups[dateOf(activity.createdAt)] else []) + [activity]]
  {
    var date := dateOf(activity.createdAt);
    var isNew := date !in groups;
    var current := if isNew then [] else groups[date];
    keys' := if isNew then keys + [date] else keys;
    groups' := groups[date := current + [activity]];
  }

  /** The loop invariant: the labels seen so far and, for each, its activities in order. */
  ghost predicate Grouped(s: seq<Activity>, dateOf: Instant -> string, keys: seq<string>, groups: map<string, seq<Activity>>) {
    keys == FirstSeenKeys(s, dateOf)
    && (forall k :: k in groups <==> k in keys)
    && (forall k :: k in groups ==> groups[k] == Filter(s, DateIs(dateOf, k)))
  }

  /** Appending one activity to the group of its label (created empty if new) keeps the invariant. */
  lemma GroupStep(s: seq<Activity>, a: Activity, dateOf: Instant -> string,
                  keys: seq<string>, groups: map<string, seq<Activity>>,
                  keys': seq<string>, groups': map<string, seq<Activity>>)
    requires Grouped(s, dateOf, keys, groups)
    requires keys' == if dateOf(a.createdAt) in groups then keys else keys + [dateOf(a.createdAt)]
    requires groups' == groups[dateOf(a.createdAt) := (if dateOf(a.createdAt) in groups then groups[dateOf(a.createdAt)] else []) + [a]]
    ensures Grouped(s + [a], dateOf, keys', groups')
  {
    StepKeys(s, a, dateOf, keys);
    forall k | k in groups' ensures groups'[k] == Filter(s + [a], DateIs(dateOf, k)) {
      StepGroup(s, a, dateOf, keys, groups, k);
    }
  }

  lemma StepKeys(s: seq<Activity>, a: Activity, dateOf: Instant -> string, keys: seq<string>)
    requires keys == FirstSeenKeys(s, dateOf)
    ensures FirstSeenKeys(s + [a], dateOf) == if dateOf(a.createdAt) in keys then keys else keys + [dateOf(a.createdAt)]
  {
    assert (s + [a])[..|s + [a]| - 1] == s;
  }

  lemma StepGroup(s: seq<Activity>, a: Activity, dateOf: Instant -> string, keys: seq<string>,
                  groups: map<string, seq<Activity>>, k: string)
    requires Grouped(s, dateOf, keys, groups)
    requires k in groups || k == dateOf(a.createdAt)
    ensures Filter(s + [a], DateIs(dateOf, k))
         == (if k in groups then groups[k] else []) + (if k == dateOf(a.createdAt) then [a] else [])
  {
    FilterSnoc(s, a, DateIs(dateOf, k));
    if k !in groups {
      FilterNoneOfKey(s, dateOf, k, keys);
    }
  }

  /** A label not among the first-seen labels of a prefix has no activity in it. */
  lemma FilterNoneOfKey(s: seq<Activity>, dateOf: Instant -> string, key: string, keys: seq<string>)
    requires keys == FirstSeenKeys(s, dateOf) && key !in keys
    ensures Filter(s, DateIs(dateOf, key)) == []
  {
    FirstSeenKeysExact(s, dateOf);
    FilterNone(s, DateIs(dateOf, key));
  }

  /** The six action tags the history page knows. */
  predicate KnownAction(action: string) {
    action in ["task_created", "task_completed", "goal_created", "goal_completed", "watchlist_added", "watchlist_finished"]
  }

  datatype Icon = PlusIcon | CheckIcon | ActivityIcon

  /** The tags of a record being created or added. */
  predicate AddedAction(action: string) {
    action in ["task_created", "goal_created", "watchlist_added"]
  }

  /** The tags of a record being completed or finished. */
  predicate FinishedAction(action: string) {
    action in ["task_completed", "goal_completed", "watchlist_finished"]
  }

  /** getActionIcon: created and added tags get a plus, completed and finished tags a check. */
  function ActionIcon(action: string): (r: Icon)
    ensures r == ActivityIcon <==> !KnownAction(action)
    ensures r == PlusIcon <==> AddedAction(action)
    ensures r == CheckIcon <==> FinishedAction(action)
  {
    if action == "task_created" || action == "goal_created" || action == "watchlist_added" then PlusIcon
    else if action == "task_completed" || action == "goal_completed" || action == "watchlist_finished" then CheckIcon
    else ActivityIcon
  }

  /** `details.title || "Unknown item"`: a missing or empty title shows as "Unknown item". */
  function DisplayTitle(details: Details): (r: string)
    ensures r != ""
    ensures details.title.Some? && details.title.value != "" ==> r == details.title.value
    ensures details.title.None? || details.title == Some("") ==> r == "Unknown item"
  {
    match details.title
    case Some(t) => if t == "" then "Unknown item" else t
    case None => "Unknown item"
  }

  /** getActionText: a sentence quoting the title for the six tags, else the tag with its first `_` spaced out. */
  function ActionText(action: string, details: Details): (r: string)
    ensures KnownAction(action) ==> Contains(r, DisplayTitle(details))
    ensures action == "task_created" ==> r == "Created task \"" + DisplayTitle(details) + "\""
    ensures action == "task_completed" ==> r == "Completed task \"" + DisplayTitle(details) + "\""
    ensures action == "goal_created" ==> r == "Started goal \"" + DisplayTitle(details) + "\""
    ensures action == "goal_completed" ==> r == "Achieved goal \"" + DisplayTitle(details) + "\"!"
    ensures action == "watchlist_added" ==> r == "Added \"" + DisplayTitle(details) + "\" to watchlist"
    ensures action == "watchlist_finished" ==> r == "Watched \"" + DisplayTitle(details) + "\""
    ensures !KnownAction(action) ==> r == ReplaceFirst(action, '_', ' ')
  {
    var title := DisplayTitle(details);
    var r :=
      if action == "task_created" then "Created task \"" + title + "\""
      else if action == "task_completed" then "Completed task \"" + title + "\""
      else if action == "goal_created" then "Started goal \"" + title + "\""
      else if action == "goal_completed" then "Achieved goal \"" + title + "\"!"
      else if action == "watchlist_added" then "Added \"" + title + "\" to watchlist"
      else if action == "watchlist_finished" then "Watched \"" + title + "\""
      else ReplaceFirst(action, '_', ' ');
    assert KnownAction(action) ==> Contains(r, title) by {
      if KnownAction(action) {
        QuotedContainsTitle(r, title, action);
      }
    }
    r
  }

  lemma QuotedContainsTitle(r: string, title: string, action: string)
    requires KnownAction(action)
    requires r == (
      if action == "task_created" then "Created task \"" + title + "\""
      else if action == "task_completed" then "Completed task \"" + title + "\""
      else if action == "goal_created" then "Started goal \"" + title + "\""
      else if action == "goal_completed" then "Achieved goal \"" + title + "\"!"
      else if action == "watchlist_added" then "Added \"" + title + "\" to watchlist"
      else "Watched \"" + title + "\"")
    ensures Contains(r, title)
  {
    var prefix :=
      if action == "task_created" then "Created task \""
      else if action == "task_completed" then "Completed task \""
      else if action == "goal_created" then "Started goal \""
      else if action == "goal_completed" then "Achieved goal \""
      else if action == "watchlist_added" then "Added \""
      else "Watched \"";
    assert r[|prefix|..|prefix| + |title|] == title;
    assert OccursAt(r, title, |prefix|);
    ContainsIffOccurs(r, title);
  }

  /** Only the first underscore of an unknown tag becomes a space. */
  lemma OnlyFirstUnderscoreSpaced()
    ensures ActionText("x_y_z", Details(None, None)) == "x y_z"
  {
    assert "x_y_z"[1..] == "_y_z";
    assert ReplaceFirst("_y_z", '_', ' ') == " y_z";
    assert ReplaceFirst("x_y_z", '_', ' ') == "x y_z";
  }
}
