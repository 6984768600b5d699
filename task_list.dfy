/**
 * The task list page (src/pages/Index.tsx): the persisted `student-tasks` list, the
 * four operations that rebuild it, and the views computed from it on every render.
 */
module TaskList {
  import opened Wrappers
  import opened Seqs
  import opened Text
  import opened Tasks

  // ---------------------------------------------------------------------------
  // filtering

  datatype StatusFilter = AllStatuses | PendingOnly | CompletedOnly
  datatype PriorityFilter = AllPriorities | OnlyPriority(priority: Priority)

  /** Case-insensitive substring match of the search term on the title or the subject. */
  predicate MatchesSearch(t: Task, term: string)
  {
    Includes(Lower(t.title), Lower(term)) || Includes(Lower(t.subject), Lower(term))
  }

  predicate MatchesStatus(t: Task, status: StatusFilter)
  {
    || status == AllStatuses
    || (status == CompletedOnly && t.completed)
    || (status == PendingOnly && !t.completed)
  }

  predicate MatchesPriority(t: Task, priority: PriorityFilter)
  {
    priority == AllPriorities || t.priority == priority.priority
  }

  predicate Matches(t: Task, term: string, status: StatusFilter, priority: PriorityFilter)
  {
    MatchesSearch(t, term) && MatchesStatus(t, status) && MatchesPriority(t, priority)
  }

  /**
   * `filteredTasks`: the tasks that pass all three filters, as a subsequence of the
   * list; a task is shown exactly when it passes them, and every copy of it is kept.
   */
  function FilteredTasks(tasks: seq<Task>, term: string, status: StatusFilter, priority: PriorityFilter): (r: seq<Task>)
    ensures IsSubseq(r, tasks)
    ensures forall t :: t in r ==> t in tasks && Matches(t, term, status, priority)
    ensures forall t :: t in tasks && Matches(t, term, status, priority) ==> t in r
    ensures multiset(r) + multiset(Filter(tasks, Unmatched(term, status, priority))) == multiset(tasks)
    ensures |r| + |Filter(tasks, Unmatched(term, status, priority))| == |tasks|
  {
    var p := (t: Task) => Matches(t, term, status, priority);
    FilterIsSubseq(tasks, p);
    FilterMembers(tasks, p);
    FilterPartition(tasks, p, Unmatched(term, status, priority));
    Filter(tasks, p)
  }

  /** The tasks the filters hide. */
  function Unmatched(term: string, status: StatusFilter, priority: PriorityFilter): Task -> bool
  {
    (t: Task) => !Matches(t, term, status, priority)
  }

  /** With an empty search and both filters on "all", every task is shown, in order. */
  lemma NoFilterShowsAll(tasks: seq<Task>)
    ensures FilteredTasks(tasks, "", AllStatuses, AllPriorities) == tasks
  {
    forall t | t in tasks ensures Matches(t, "", AllStatuses, AllPriorities) {
      IncludesEmpty(Lower(t.title));
    }
    FilterKeepsAll(tasks, (t: Task) => Matches(t, "", AllStatuses, AllPriorities));
  }

  /** The search finds the lower-cased term at some position of the lower-cased title or subject. */
  lemma SearchMeansOccurrence(t: Task, term: string)
    ensures MatchesSearch(t, term) <==>
              (exists i :: SliceAt(Lower(t.title), Lower(term), i))
              || (exists i :: SliceAt(Lower(t.subject), Lower(term), i))
  {
    IncludesAt(Lower(t.title), Lower(term));
    IncludesAt(Lower(t.subject), Lower(term));
  }

  /** The search ignores the case of the term. */
  lemma SearchIgnoresCase(t: Task, term: string)
    ensures MatchesSearch(t, Upper(term)) == MatchesSearch(t, term)
  {
    LowerIgnoresCase(term);
  }

  // ---------------------------------------------------------------------------
  // stats

  datatype Stats = Stats(total: nat, completed: nat, pending: int, overdue: nat)

  /** The page's own overdue test (Index.tsx:39-41), written out as the source does. */
  function OverdueTasks(tasks: seq<Task>, now: int): seq<Task>
  {
    Filter(tasks, (t: Task) => t.dueDate < now && !t.completed)
  }

  /**
   * `stats`: pending is total minus completed, and since an overdue task is never
   * completed, there are never more overdue tasks than pending ones.
   */
  function TaskStats(tasks: seq<Task>, now: int): (r: Stats)
    ensures r.total == |tasks|
    ensures r.completed <= r.total
    ensures r.pending == r.total - r.completed
    ensures r.pending == |Filter(tasks, IsPending)|
    ensures r.overdue <= r.pending
  {
    var completed := |CompletedTasks(tasks)|;
    var overdue := OverdueTasks(tasks, now);
    FilterPartition(tasks, IsCompleted, IsPending);
    FilterMonotone(tasks, (t: Task) => t.dueDate < now && !t.completed, IsPending);
    Stats(|tasks|, completed, |tasks| - completed, |overdue|)
  }

  /** The overdue count is the number of tasks whose card shows them as overdue. */
  lemma OverdueCountMatchesCards(tasks: seq<Task>, now: int)
    ensures TaskStats(tasks, now).overdue == |Filter(tasks, (t: Task) => IsOverdue(t, now))|
    ensures forall t :: t in OverdueTasks(tasks, now) <==> t in tasks && IsOverdue(t, now)
  {
    FilterExt(tasks, (t: Task) => t.dueDate < now && !t.completed, (t: Task) => IsOverdue(t, now));
    FilterMembers(tasks, (t: Task) => t.dueDate < now && !t.completed);
  }

  // ---------------------------------------------------------------------------
  // upcoming

  predicate DueLe(a: Task, b: Task)
  {
    a.dueDate <= b.dueDate
  }

  lemma DueLeTotalPreorder()
    ensures TotalPreorder(DueLe)
  {
  }

  /** The incomplete tasks, sorted by due date (stably), before the cut to three. */
  function PendingByDue(tasks: seq<Task>): seq<Task>
  {
    Sort(Filter(tasks, IsPending), DueLe)
  }

  /**
   * `upcomingTasks`: at most three incomplete tasks, in due-date order, and no
   * incomplete task left out is due earlier than one shown.
   */
  function UpcomingTasks(tasks: seq<Task>): (r: seq<Task>)
    ensures |r| == if |Filter(tasks, IsPending)| < 3 then |Filter(tasks, IsPending)| else 3
    ensures forall t :: t in r ==> t in tasks && !t.completed
    ensures Sorted(r, DueLe)
    ensures forall u, t :: u in r && t in tasks && !t.completed && t !in r ==> u.dueDate <= t.dueDate
  {
    var pending := Filter(tasks, IsPending);
    var sorted := PendingByDue(tasks);
    FilterMembers(tasks, IsPending);
    DueLeTotalPreorder();
    SortSorted(pending, DueLe);
    SortMembers(pending, DueLe);
    TakeOfSorted(sorted, DueLe, 3);
    assert |sorted| == |multiset(sorted)| == |multiset(pending)| == |pending|;
    Take(sorted, 3)
  }

  /**
   * Ties in due date keep their order in the list: among the tasks due at one moment,
   * the sorted pending tasks list them as the list does.
   */
  lemma UpcomingStable(tasks: seq<Task>, due: int)
    ensures Filter(PendingByDue(tasks), (t: Task) => t.dueDate == due)
         == Filter(Filter(tasks, IsPending), (t: Task) => t.dueDate == due)
  {
    DueLeTotalPreorder();
    SortStable(Filter(tasks, IsPending), DueLe, (t: Task) => t.dueDate == due);
  }

  /** The upcoming list is the front of the stably sorted pending tasks. */
  lemma UpcomingIsPrefix(tasks: seq<Task>)
    ensures UpcomingTasks(tasks) == PendingByDue(tasks)[..|UpcomingTasks(tasks)|]
  {
  }

  // ---------------------------------------------------------------------------
  // the page's state

  /**
   * The page: its copy of the persisted `student-tasks` list and its transient form
   * state (the task being edited and whether the form is open).
   */
  class TaskBoard {
    var tasks: seq<Task>
    var editingTask: Option<Task>
    var isFormOpen: bool

    constructor (stored: seq<Task>)
      ensures tasks == stored && editingTask == None && !isFormOpen
    {
      tasks := stored;
      editingTask := None;
      isFormOpen := false;
    }

    /** `addTask`: the new task, with the fresh id, goes at the end. */
    method AddTask(data: TaskData, freshId: string)
      modifies this
      ensures tasks == Appended(old(tasks), data, freshId)
      ensures editingTask == old(editingTask) && isFormOpen == old(isFormOpen)
    {
      tasks := tasks + [WithId(data, freshId)];
    }

    /** `updateTask`: nothing without an edit target; otherwise replace it and stop editing. */
    method UpdateTask(data: TaskData)
      modifies this
      ensures old(editingTask) == None ==> tasks == old(tasks) && editingTask == None
      ensures old(editingTask) != None ==>
                tasks == ReplaceById(old(tasks), old(editingTask).value.id, data) && editingTask == None
      ensures isFormOpen == old(isFormOpen)
    {
      if editingTask == None {
        return;
      }
      tasks := ReplaceById(tasks, editingTask.value.id, data);
      editingTask := None;
    }

    /** The form's submit: `editingTask ? updateTask : addTask`. */
    method SubmitForm(data: TaskData, freshId: string)
      modifies this
      ensures old(editingTask) == None ==> tasks == Appended(old(tasks), data, freshId)
      ensures old(editingTask) != None ==> tasks == ReplaceById(old(tasks), old(editingTask).value.id, data)
      ensures editingTask == None && isFormOpen == old(isFormOpen)
    {
      if editingTask != None {
        UpdateTask(data);
      } else {
        AddTask(data, freshId);
      }
    }

    /** `toggleTaskComplete`. */
    method ToggleTaskComplete(id: string)
      modifies this
      ensures tasks == ToggleById(old(tasks), id)
      ensures editingTask == old(editingTask) && isFormOpen == old(isFormOpen)
    {
      tasks := ToggleById(tasks, id);
    }

    /** `deleteTask`. */
    method DeleteTask(id: string)
      modifies this
      ensures tasks == RemoveById(old(tasks), id)
      ensures editingTask == old(editingTask) && isFormOpen == old(isFormOpen)
    {
      tasks := RemoveById(tasks, id);
    }

    /** `handleEditTask`: the task becomes the edit target and the form opens. */
    method HandleEditTask(t: Task)
      modifies this
      ensures editingTask == Some(t) && isFormOpen && tasks == old(tasks)
    {
      editingTask := Some(t);
      isFormOpen := true;
    }

    /** The form's `onClose`: it closes and forgets the edit target. */
    method CloseForm()
      modifies this
      ensures editingTask == None && !isFormOpen && tasks == old(tasks)
    {
      isFormOpen := false;
      editingTask := None;
    }

    /** The three tabs' lists, read from the page's current state. */
    method Views(term: string, status: StatusFilter, priority: PriorityFilter)
      returns (all: seq<Task>, upcoming: seq<Task>, completed: seq<Task>)
      ensures all == FilteredTasks(tasks, term, status, priority)
      ensures upcoming == UpcomingTasks(tasks)
      ensures completed == CompletedTasks(tasks)
      ensures forall t :: t in completed <==> t in tasks && t.completed
    {
      all := FilteredTasks(tasks, term, status, priority);
      upcoming := UpcomingTasks(tasks);
      completed := CompletedTasks(tasks);
    }
  }

  // ---------------------------------------------------------------------------
  // the list operations

  /** `[...tasks, { ...data, id }]`: one more task, every earlier one untouched. */
  function Appended(tasks: seq<Task>, data: TaskData, id: string): (r: seq<Task>)
    ensures |r| == |tasks| + 1
    ensures r[..|tasks|] == tasks
    ensures r[|tasks|].id == id && DataOf(r[|tasks|]) == data
  {
    tasks + [WithId(data, id)]
  }

  /**
   * `tasks.map(task => task.id === id ? { ...data, id } : task)`: same length and
   * ids; every task with the id gets the submitted fields, every other is untouched.
   */
  function ReplaceById(tasks: seq<Task>, id: string, data: TaskData): (r: seq<Task>)
    ensures |r| == |tasks|
    ensures forall i :: 0 <= i < |tasks| ==> r[i].id == tasks[i].id
    ensures forall i :: 0 <= i < |tasks| && tasks[i].id == id ==> DataOf(r[i]) == data
    ensures forall i :: 0 <= i < |tasks| && tasks[i].id != id ==> r[i] == tasks[i]
  {
    seq(|tasks|, i requires 0 <= i < |tasks| => if tasks[i].id == id then WithId(data, id) else tasks[i])
  }

  /** `tasks.map(task => task.id === id ? { ...task, completed: !task.completed } : task)`. */
  function ToggleById(tasks: seq<Task>, id: string): (r: seq<Task>)
    ensures |r| == |tasks|
    ensures forall i :: 0 <= i < |tasks| && tasks[i].id == id ==>
              r[i] == tasks[i].(completed := !tasks[i].completed)
    ensures forall i :: 0 <= i < |tasks| && tasks[i].id != id ==> r[i] == tasks[i]
  {
    seq(|tasks|, i requires 0 <= i < |tasks| =>
      if tasks[i].id == id then tasks[i].(completed := !tasks[i].completed) else tasks[i])
  }

  /** `tasks.filter(task => task.id !== id)`. */
  function RemoveById(tasks: seq<Task>, id: string): (r: seq<Task>)
    ensures IsSubseq(r, tasks)
    ensures forall t :: t in r ==> t in tasks && t.id != id
    ensures forall t :: t in tasks && t.id != id ==> t in r
  {
    var p := (t: Task) => t.id != id;
    FilterIsSubseq(tasks, p);
    FilterMembers(tasks, p);
    Filter(tasks, p)
  }

  predicate HasId(tasks: seq<Task>, id: string)
  {
    exists t :: t in tasks && t.id == id
  }

  /** Toggling the same id twice restores the list. */
  lemma ToggleTwice(tasks: seq<Task>, id: string)
    ensures ToggleById(ToggleById(tasks, id), id) == tasks
  {
  }

  /** Toggling an id no task has changes nothing. */
  lemma ToggleUnknown(tasks: seq<Task>, id: string)
    requires !HasId(tasks, id)
    ensures ToggleById(tasks, id) == tasks
  {
    assert forall i :: 0 <= i < |tasks| ==> tasks[i].id != id by {
      forall i | 0 <= i < |tasks| ensures tasks[i].id != id {
        assert tasks[i] in tasks;
      }
    }
  }

  /** Replacing an id no task has changes nothing. */
  lemma ReplaceUnknown(tasks: seq<Task>, id: string, data: TaskData)
    requires !HasId(tasks, id)
    ensures ReplaceById(tasks, id, data) == tasks
  {
    assert forall i :: 0 <= i < |tasks| ==> tasks[i].id != id by {
      forall i | 0 <= i < |tasks| ensures tasks[i].id != id {
        assert tasks[i] in tasks;
      }
    }
  }

  /** Replacing with the same fields twice is replacing once. */
  lemma ReplaceIdempotent(tasks: seq<Task>, id: string, data: TaskData)
    ensures ReplaceById(ReplaceById(tasks, id, data), id, data) == ReplaceById(tasks, id, data)
  {
  }

  /** Deleting an id no task has leaves the list as it was. */
  lemma RemoveUnknown(tasks: seq<Task>, id: string)
    requires !HasId(tasks, id)
    ensures RemoveById(tasks, id) == tasks
  {
    FilterKeepsAll(tasks, (t: Task) => t.id != id);
  }

  /** After a delete, no task with that id is left, and deleting again changes nothing. */
  lemma RemoveIdempotent(tasks: seq<Task>, id: string)
    ensures !HasId(RemoveById(tasks, id), id)
    ensures RemoveById(RemoveById(tasks, id), id) == RemoveById(tasks, id)
  {
    RemoveUnknown(RemoveById(tasks, id), id);
  }

  /** A delete removes exactly the tasks with the id: their number is the length lost. */
  lemma RemoveCount(tasks: seq<Task>, id: string)
    ensures |RemoveById(tasks, id)| + |Filter(tasks, (t: Task) => t.id == id)| == |tasks|
  {
    FilterPartition(tasks, (t: Task) => t.id != id, (t: Task) => t.id == id);
  }

  /** Adding a task under an unused id and deleting that id restores the list. */
  lemma RemoveAfterAppend(tasks: seq<Task>, data: TaskData, id: string)
    requires !HasId(tasks, id)
    ensures RemoveById(Appended(tasks, data, id), id) == tasks
  {
    var p := (t: Task) => t.id != id;
    FilterConcat(tasks, [WithId(data, id)], p);
    FilterKeepsAll(tasks, p);
  }

  /** Toggling never changes the number of tasks, nor the set of ids. */
  lemma ToggleKeepsTotal(tasks: seq<Task>, id: string, now: int)
    ensures TaskStats(ToggleById(tasks, id), now).total == TaskStats(tasks, now).total
    ensures forall i :: 0 <= i < |tasks| ==> ToggleById(tasks, id)[i].id == tasks[i].id
  {
  }
}
