/**
 * The calendar page (src/pages/Calendar.tsx): the tasks due on the selected day and
 * the due moments the calendar widget highlights.
 */
module Calendar {
  import opened Wrappers
  import opened Seqs
  import opened Tasks

  /** `getTasksForDate(date)`: the tasks due on the calendar day of `date`, in list order. */
  function TasksForDate(tasks: seq<Task>, date: int): (r: seq<Task>)
    ensures IsSubseq(r, tasks)
    ensures forall t :: t in r ==> t in tasks && DayOf(t.dueDate) == DayOf(date)
    ensures forall t :: t in tasks && DayOf(t.dueDate) == DayOf(date) ==> t in r
  {
    var p := (t: Task) => DayOf(t.dueDate) == DayOf(date);
    FilterIsSubseq(tasks, p);
    FilterMembers(tasks, p);
    Filter(tasks, p)
  }

  /** `selectedDateTasks`: nothing while no date is selected. */
  function SelectedDateTasks(tasks: seq<Task>, selected: Option<int>): (r: seq<Task>)
    ensures selected == None ==> r == []
    ensures selected != None ==> r == TasksForDate(tasks, selected.value)
  {
    match selected
    case None => []
    case Some(date) => TasksForDate(tasks, date)
  }

  /** `getDatesWithTasks()`: one due moment per task, in task order. */
  function DatesWithTasks(tasks: seq<Task>): (r: seq<int>)
    ensures |r| == |tasks|
    ensures forall i :: 0 <= i < |tasks| ==> r[i] == tasks[i].dueDate
  {
    seq(|tasks|, i requires 0 <= i < |tasks| => tasks[i].dueDate)
  }

  /** A task is listed under its own due day and under no other day. */
  lemma ListedOnOwnDayOnly(tasks: seq<Task>, t: Task, date: int)
    requires t in tasks
    ensures t in TasksForDate(tasks, date) <==> DayOf(date) == DayOf(t.dueDate)
  {
  }

  /** Only the calendar day of the date matters, not its time of day. */
  lemma TimeOfDayIgnored(tasks: seq<Task>, a: int, b: int)
    requires DayOf(a) == DayOf(b)
    ensures TasksForDate(tasks, a) == TasksForDate(tasks, b)
  {
    FilterExt(tasks, (t: Task) => DayOf(t.dueDate) == DayOf(a), (t: Task) => DayOf(t.dueDate) == DayOf(b));
  }

  /** A day is highlighted in the widget exactly when its task list is not empty. */
  lemma HighlightedIffTasks(tasks: seq<Task>, date: int)
    ensures (exists i :: 0 <= i < |DatesWithTasks(tasks)| && DayOf(DatesWithTasks(tasks)[i]) == DayOf(date))
            <==> TasksForDate(tasks, date) != []
  {
    var dates := DatesWithTasks(tasks);
    var r := TasksForDate(tasks, date);
    if exists i :: 0 <= i < |dates| && DayOf(dates[i]) == DayOf(date) {
      var i :| 0 <= i < |dates| && DayOf(dates[i]) == DayOf(date);
      assert tasks[i] in tasks;
      assert tasks[i] in r;
    }
    if r != [] {
      assert r[0] in r;
      var i :| 0 <= i < |tasks| && tasks[i] == r[0];
      assert DayOf(dates[i]) == DayOf(date);
    }
  }

  /** A day's tasks and the tasks due on other days together make up the whole list. */
  lemma DayListsBounded(tasks: seq<Task>, date: int)
    ensures |TasksForDate(tasks, date)| <= |tasks|
    ensures |TasksForDate(tasks, date)| + |Filter(tasks, (t: Task) => DayOf(t.dueDate) != DayOf(date))| == |tasks|
  {
    FilterPartition(tasks, (t: Task) => DayOf(t.dueDate) == DayOf(date), (t: Task) => DayOf(t.dueDate) != DayOf(date));
  }
}
