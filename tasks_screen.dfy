/** The rules of the task list screen: the relative time shown on a task card, the colour of
    a category badge, the client-side search filter over the loaded tasks and the filters the
    screen passes to `getTasks`. */
module TasksScreen {
  import opened Wrappers
  import opened Collections
  import Text
  import TaskShaping

  // ---------------------------------------------------------------------------------------
  // Relative time

  const MsPerMinute: int := 60 * 1000
  const MsPerHour: int := 60 * MsPerMinute
  const MsPerDay: int := 24 * MsPerHour

  /** `${n} ${unit}${n > 1 ? 's' : ''} ago`. */
  function Ago(n: nat, unit: string): string
  {
    Text.NatToString(n) + " " + unit + (if n > 1 then "s" else "") + " ago"
  }

  /** `formatDate` for a card stamped `diffMs` milliseconds before now: the elapsed time is
      floored to seconds, minutes, hours and days, and the largest positive unit is shown. */
  function FormatDate(diffMs: int): string
  {
    var diffSec := diffMs / 1000;
    var diffMin := diffSec / 60;
    var diffHr := diffMin / 60;
    var diffDays := diffHr / 24;
    if diffDays > 0 then Ago(diffDays, "day")
    else if diffHr > 0 then Ago(diffHr, "hour")
    else if diffMin > 0 then Ago(diffMin, "minute")
    else "Just now"
  }

  /** Flooring by 1000, 60, 60 and 24 in turn is flooring by the length of the unit. */
  lemma FloorChain(diffMs: int)
    ensures diffMs / 1000 / 60 == diffMs / MsPerMinute
    ensures diffMs / 1000 / 60 / 60 == diffMs / MsPerHour
    ensures diffMs / 1000 / 60 / 60 / 24 == diffMs / MsPerDay
  {
  }

  /** The card shows the largest whole unit that has elapsed, floored: days from one day on,
      hours from one hour on, minutes from one minute on, and "Just now" below a minute,
      including every negative difference (a timestamp in the future). */
  lemma FormatDateUnits(diffMs: int)
    ensures diffMs >= MsPerDay ==> FormatDate(diffMs) == Ago(diffMs / MsPerDay, "day")
    ensures MsPerHour <= diffMs < MsPerDay ==> FormatDate(diffMs) == Ago(diffMs / MsPerHour, "hour")
    ensures MsPerMinute <= diffMs < MsPerHour ==> FormatDate(diffMs) == Ago(diffMs / MsPerMinute, "minute")
    ensures diffMs < MsPerMinute <==> FormatDate(diffMs) == "Just now"
  {
    FloorChain(diffMs);
    if diffMs >= MsPerMinute {
      assert FormatDate(diffMs) != "Just now" by {
        var n := diffMs / MsPerMinute;
        var s := FormatDate(diffMs);
        assert |s| >= 8;
        assert s[|s| - 3..] == "ago";
      }
    }
  }

  /** The unit is written in the plural exactly when more than one has elapsed. */
  lemma AgoPlural(n: nat, unit: string)
    requires unit == "day" || unit == "hour" || unit == "minute"
    ensures var s := Ago(n, unit);
      n > 1 <==> (|s| >= 5 && s[|s| - 5..] == "s ago")
  {
    var s := Ago(n, unit);
    Text.NatToStringDigits(n);
    assert s[|s| - 4..] == " ago";
    if n <= 1 {
      assert s[|s| - 5] == unit[|unit| - 1];
    }
  }

  lemma FormatDateExamples()
    ensures FormatDate(0) == "Just now"
    ensures FormatDate(-5000) == "Just now"
    ensures FormatDate(59999) == "Just now"
    ensures FormatDate(60000) == "1 minute ago"
    ensures FormatDate(2 * MsPerHour + 1) == "2 hours ago"
    ensures FormatDate(3 * MsPerDay) == "3 days ago"
  {
    OneMinuteExample();
    TwoHoursExample();
    ThreeDaysExample();
  }

  lemma OneMinuteExample()
    ensures FormatDate(60000) == "1 minute ago"
  {
    assert Text.NatToString(1) == "1";
  }

  lemma TwoHoursExample()
    ensures FormatDate(2 * MsPerHour + 1) == "2 hours ago"
  {
    assert Text.NatToString(2) == "2";
  }

  lemma ThreeDaysExample()
    ensures FormatDate(3 * MsPerDay) == "3 days ago"
  {
    assert Text.NatToString(3) == "3";
  }

  // ---------------------------------------------------------------------------------------
  // Category colours

  const DefaultColor: string := "bg-gray-100 text-gray-800"

  /** The badge classes of the known categories. */
  const ColorMap: map<string, string> := map[
    "Gardening" := "bg-green-100 text-green-800",
    "Errands" := "bg-blue-100 text-blue-800",
    "Technology" := "bg-purple-100 text-purple-800",
    "Home Repair" := "bg-yellow-100 text-yellow-800",
    "Pet Care" := "bg-pink-100 text-pink-800",
    "Delivery" := "bg-orange-100 text-orange-800",
    "Cleaning" := "bg-cyan-100 text-cyan-800"]

  /** `colorMap[category] || 'bg-gray-100 text-gray-800'`. */
  function GetCategoryColor(category: string): string
  {
    if category in ColorMap && ColorMap[category] != "" then ColorMap[category] else DefaultColor
  }

  /** A known category gets its own badge, no two known categories share one, and every other
      category, the empty one included, gets the gray default. */
  lemma CategoryColorSpec(category: string)
    ensures category in ColorMap ==> GetCategoryColor(category) == ColorMap[category]
    ensures GetCategoryColor(category) == DefaultColor <==> category !in ColorMap
    ensures forall c, d :: c in ColorMap && d in ColorMap && c != d ==> GetCategoryColor(c) != GetCategoryColor(d)
  {
  }

  lemma CategoryColorExamples()
    ensures GetCategoryColor("Gardening") == "bg-green-100 text-green-800"
    ensures GetCategoryColor("Cleaning") == "bg-cyan-100 text-cyan-800"
    ensures GetCategoryColor("gardening") == DefaultColor
    ensures GetCategoryColor("") == DefaultColor
  {
  }

  // ---------------------------------------------------------------------------------------
  // Search filter

  /** The two fields a task card is searched by. */
  datatype TaskCard = TaskCard(title: string, description: string)

  /** The `filteredTasks` predicate for a non-empty query. */
  predicate MatchesQuery(query: string, task: TaskCard)
  {
    Text.Contains(Text.Lower(task.title), Text.Lower(query)) ||
    Text.Contains(Text.Lower(task.description), Text.Lower(query))
  }

  /** `tasks.filter(task => !searchQuery || ...)`. */
  function FilteredTasks(tasks: seq<TaskCard>, searchQuery: string): seq<TaskCard>
  {
    Filter((t: TaskCard) => searchQuery == "" || MatchesQuery(searchQuery, t), tasks)
  }

  /** An empty query shows every task; otherwise exactly the tasks whose title or description
      contains the query, ignoring case, are shown, in their order. */
  lemma FilteredTasksSpec(tasks: seq<TaskCard>, searchQuery: string)
    ensures var r := FilteredTasks(tasks, searchQuery);
      && IsSubsequence(r, tasks)
      && (searchQuery == "" ==> r == tasks)
      && (forall i :: 0 <= i < |r| ==> searchQuery == "" || MatchesQuery(searchQuery, r[i]))
      && (forall i :: 0 <= i < |tasks| && MatchesQuery(searchQuery, tasks[i]) ==> tasks[i] in r)
      && (forall t :: multiset(r)[t] ==
            if searchQuery == "" || MatchesQuery(searchQuery, t) then multiset(tasks)[t] else 0)
  {
    var p := (t: TaskCard) => searchQuery == "" || MatchesQuery(searchQuery, t);
    FilterIsSubsequence(p, tasks);
    FilterCount(p, tasks);
    if searchQuery == "" {
      FilterKeepsAll(p, tasks);
    }
  }

  /** The search ignores the case of the query: a query and its lower-case form show the same
      tasks. */
  lemma SearchIgnoresQueryCase(tasks: seq<TaskCard>, searchQuery: string)
    ensures FilteredTasks(tasks, Text.Lower(searchQuery)) == FilteredTasks(tasks, searchQuery)
  {
    Text.LowerIdempotent(searchQuery);
    assert (Text.Lower(searchQuery) == "") == (searchQuery == "");
    var p := (t: TaskCard) => searchQuery == "" || MatchesQuery(searchQuery, t);
    var q := (t: TaskCard) => Text.Lower(searchQuery) == "" || MatchesQuery(Text.Lower(searchQuery), t);
    assert forall t :: p(t) == q(t);
    FilterSame(p, q, tasks);
  }

  // ---------------------------------------------------------------------------------------
  // Filters passed to getTasks

  const AllTasks: string := "All Tasks"

  /** `handleCategorySelect`: the pseudo-category 'All Tasks' clears the selection. */
  function HandleCategorySelect(category: string): (selected: Option<string>)
    ensures selected.None? <==> category == AllTasks
    ensures selected.Some? ==> selected.value == category
  {
    if category == AllTasks then None else Some(category)
  }

  /** The filters `fetchTasks` builds: a category only when one is selected (a truthy value)
      and it is not 'All Tasks'. */
  function FetchFilters(selectedCategory: Option<string>): (f: TaskShaping.TaskFilters)
    ensures f.creatorId.None?
    ensures f.category.Some? <==>
      (selectedCategory.Some? && selectedCategory.value != "" && selectedCategory.value != AllTasks)
    ensures f.category.Some? ==> f.category.value == selectedCategory.value
  {
    if selectedCategory.Some? && selectedCategory.value != "" && selectedCategory.value != AllTasks
    then TaskShaping.TaskFilters(None, selectedCategory)
    else TaskShaping.TaskFilters(None, None)
  }

  /** The filters of the "posted by me" tab. */
  function PostedFilters(userId: string): (f: TaskShaping.TaskFilters)
    ensures f.creatorId == Some(userId) && f.category.None?
  {
    TaskShaping.TaskFilters(Some(userId), None)
  }

  /** Choosing a category on the explore tab asks for the open tasks of that category, and
      choosing 'All Tasks' (or the empty category) for all open tasks; the "posted by me" tab
      asks for the signed-in user's tasks of every status. */
  lemma CategorySelectionQuery(category: string, userId: string)
    ensures var f := FetchFilters(HandleCategorySelect(category));
      && TaskShaping.QueryFilterOf(f) == TaskShaping.OpenOnly
      && (f.category.Some? <==> category != AllTasks && category != "")
      && (f.category.Some? ==> f.category.value == category)
    ensures userId != "" ==> TaskShaping.QueryFilterOf(PostedFilters(userId)) == TaskShaping.ByCreator(userId)
  {
  }
}
