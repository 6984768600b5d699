/**
 * The task record shared by every page, the card's overdue test and priority colour
 * (src/components/TaskCard.tsx), and the calendar day a due date falls on.
 */
module Tasks {
  import opened Seqs

  datatype Priority = Low | Medium | High

  /** The string the source stores for a priority. */
  function PriorityName(p: Priority): string
  {
    match p
    case Low => "low"
    case Medium => "medium"
    case High => "high"
  }

  /** A task; `dueDate` is the due moment in milliseconds since the epoch. */
  datatype Task = Task(
    id: string,
    title: string,
    description: string,
    dueDate: int,
    priority: Priority,
    completed: bool,
    subject: string)

  /** A task without its id (`Omit<Task, 'id'>`): what the task form submits. */
  datatype TaskData = TaskData(
    title: string,
    description: string,
    dueDate: int,
    priority: Priority,
    completed: bool,
    subject: string)

  /** `{ ...data, id }`. */
  function WithId(data: TaskData, id: string): (t: Task)
    ensures t.id == id && DataOf(t) == data
  {
    Task(id, data.title, data.description, data.dueDate, data.priority, data.completed, data.subject)
  }

  /** Every field of a task but its id. */
  function DataOf(t: Task): TaskData
  {
    TaskData(t.title, t.description, t.dueDate, t.priority, t.completed, t.subject)
  }

  /** The card's test: due strictly before `now` and not completed. */
  predicate IsOverdue(t: Task, now: int)
  {
    t.dueDate < now && !t.completed
  }

  lemma CompletedNeverOverdue(t: Task, now: int)
    requires t.completed
    ensures !IsOverdue(t, now)
  {
  }

  lemma PendingOverdueIff(t: Task, now: int)
    requires !t.completed
    ensures IsOverdue(t, now) <==> t.dueDate < now
  {
  }

  /** The badge classes of `getPriorityColor`, which takes any string. */
  function PriorityColor(priority: string): string
  {
    if priority == "high" then "bg-destructive text-destructive-foreground"
    else if priority == "medium" then "bg-warning text-warning-foreground"
    else if priority == "low" then "bg-success text-success-foreground"
    else "bg-secondary text-secondary-foreground"
  }

  /** The three priorities get three different colours, none of them the default. */
  lemma PriorityColorsDistinct(p: Priority, q: Priority)
    ensures PriorityColor(PriorityName(p)) == PriorityColor(PriorityName(q)) <==> p == q
    ensures PriorityColor(PriorityName(p)) != "bg-secondary text-secondary-foreground"
  {
  }

  /** A string that names no priority gets the secondary colour. */
  lemma PriorityColorDefault(priority: string)
    requires priority != "high" && priority != "medium" && priority != "low"
    ensures PriorityColor(priority) == "bg-secondary text-secondary-foreground"
  {
  }

  // ---------------------------------------------------------------------------
  // calendar days

  const MsPerDay: int := 86_400_000

  /** The calendar day (days since the epoch) of a moment: what `toDateString` compares. */
  function DayOf(ts: int): (d: int)
    ensures d * MsPerDay <= ts < (d + 1) * MsPerDay
  {
    ts / MsPerDay
  }

  /** A moment's day is the one day-long window that contains it. */
  lemma DayOfIff(ts: int, d: int)
    ensures DayOf(ts) == d <==> d * MsPerDay <= ts < (d + 1) * MsPerDay
  {
    var e := DayOf(ts);
    assert e < d ==> (e + 1) * MsPerDay <= d * MsPerDay;
    assert e > d ==> (d + 1) * MsPerDay <= e * MsPerDay;
  }

  // ---------------------------------------------------------------------------
  // views shared by several pages

  /** `tasks.filter(task => task.completed)`. */
  function CompletedTasks(tasks: seq<Task>): (r: seq<Task>)
    ensures IsSubseq(r, tasks)
    ensures forall t :: t in r ==> t in tasks && t.completed
    ensures forall t :: t in tasks && t.completed ==> t in r
  {
    FilterIsSubseq(tasks, IsCompleted);
    FilterMembers(tasks, IsCompleted);
    Filter(tasks, IsCompleted)
  }

  predicate IsCompleted(t: Task)
  {
    t.completed
  }

  predicate IsPending(t: Task)
  {
    !t.completed
  }

  /** `tasks.map(task => task.subject)`. */
  function Subjects(tasks: seq<Task>): (r: seq<string>)
    ensures |r| == |tasks|
    ensures forall i :: 0 <= i < |tasks| ==> r[i] == tasks[i].subject
  {
    seq(|tasks|, i requires 0 <= i < |tasks| => tasks[i].subject)
  }

  /**
   * `[...new Set(tasks.map(task => task.subject))]`: each subject once, over all
   * tasks whether completed or not; never more subjects than tasks.
   */
  function DistinctSubjects(tasks: seq<Task>): (r: seq<string>)
    ensures |r| <= |tasks|
    ensures NoDup(r)
    ensures forall s :: s in r ==> exists t :: t in tasks && t.subject == s
    ensures forall t :: t in tasks ==> t.subject in r
  {
    var subjects := Subjects(tasks);
    var r := Dedup(subjects);
    assert forall s :: s in subjects ==> exists t :: t in tasks && t.subject == s by {
      forall s | s in subjects ensures exists t :: t in tasks && t.subject == s {
        var i :| 0 <= i < |subjects| && subjects[i] == s;
        assert tasks[i] in tasks;
      }
    }
    assert forall t :: t in tasks ==> t.subject in subjects by {
      forall t | t in tasks ensures t.subject in subjects {
        var i :| 0 <= i < |tasks| && tasks[i] == t;
        assert subjects[i] == t.subject;
      }
    }
    r
  }
}
