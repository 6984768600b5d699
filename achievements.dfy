/**
 * The achievements page (src/pages/Achievements.tsx): statistics computed from the
 * task list, a fixed table of nine badges with thresholds, and its split into
 * unlocked and locked badges.
 */
module Achievements {
  import opened Seqs
  import opened Tasks

  datatype Category = TasksCategory | Consistency | SubjectsCategory | Speed

  datatype Achievement = Achievement(
    id: string,
    title: string,
    description: string,
    category: Category,
    threshold: int,
    current: int,
    unlocked: bool)

  datatype AchievementStats = AchievementStats(
    totalCompleted: nat,
    totalTasks: nat,
    completionRate: real,
    subjectsCount: nat,
    currentStreak: nat,
    maxStreak: nat,
    highPriorityCompleted: nat)

  // ---------------------------------------------------------------------------
  // the streak

  /** The calendar days `today`, `today - 1`, ..., `today - (n - 1)`. */
  function DaysBack(today: int, n: nat): (r: seq<int>)
    ensures |r| == n
    ensures forall i :: 0 <= i < n ==> r[i] == today - i
  {
    if n == 0 then [] else DaysBack(today, n - 1) + [today - (n - 1)]
  }

  /** `last7Days`. */
  function Last7Days(today: int): (r: seq<int>)
    ensures |r| == 7
    ensures forall i :: 0 <= i < 7 ==> r[i] == today - i
  {
    DaysBack(today, 7)
  }

  /** `completedDates`: the day of each completed task (the source also sorts them,
      which no membership test below can observe). */
  function CompletedDates(tasks: seq<Task>): (r: seq<int>)
    ensures |r| == |CompletedTasks(tasks)|
    ensures forall i :: 0 <= i < |r| ==> r[i] == DayOf(CompletedTasks(tasks)[i].dueDate)
  {
    var done := CompletedTasks(tasks);
    seq(|done|, i requires 0 <= i < |done| => DayOf(done[i].dueDate))
  }

  /** Some completed task is due on `day`. */
  ghost predicate HasCompletedOn(tasks: seq<Task>, day: int)
  {
    exists t :: t in tasks && t.completed && DayOf(t.dueDate) == day
  }

  /** `completedInLast7Days`: how many of the last seven days appear among the completed dates. */
  function Streak(tasks: seq<Task>, today: int): nat
  {
    var dates := CompletedDates(tasks);
    |Filter(Last7Days(today), (d: int) => d in dates)|
  }

  /** Reference count: of the days `today - 0 .. today - (n - 1)`, those with a completed task. */
  ghost function DaysWithCompletedTask(tasks: seq<Task>, today: int, n: nat): nat
  {
    if n == 0 then 0
    else DaysWithCompletedTask(tasks, today, n - 1) + (if HasCompletedOn(tasks, today - (n - 1)) then 1 else 0)
  }

  lemma CompletedDatesMembers(tasks: seq<Task>, day: int)
    ensures day in CompletedDates(tasks) <==> HasCompletedOn(tasks, day)
  {
    var done := CompletedTasks(tasks);
    var dates := CompletedDates(tasks);
    if day in dates {
      var i :| 0 <= i < |dates| && dates[i] == day;
      assert done[i] in done;
    }
    if HasCompletedOn(tasks, day) {
      var t :| t in tasks && t.completed && DayOf(t.dueDate) == day;
      var i :| 0 <= i < |done| && done[i] == t;
      assert dates[i] == day;
    }
  }

  lemma {:induction false} DaysBackCount(tasks: seq<Task>, today: int, n: nat, p: int -> bool)
    requires forall d :: p(d) == HasCompletedOn(tasks, d)
    ensures |Filter(DaysBack(today, n), p)| == DaysWithCompletedTask(tasks, today, n)
  {
    if n > 0 {
      var day := today - (n - 1);
      var earlier := DaysBack(today, n - 1);
      assert DaysBack(today, n) == earlier + [day];
      DaysBackCount(tasks, today, n - 1, p);
      FilterConcat(earlier, [day], p);
      FilterSingle(day, p);
      assert p(day) == HasCompletedOn(tasks, day);
    }
  }

  /** The streak is the number of the last seven days on which a completed task was due. */
  lemma StreakCountsDays(tasks: seq<Task>, today: int)
    ensures Streak(tasks, today) == DaysWithCompletedTask(tasks, today, 7)
  {
    var dates := CompletedDates(tasks);
    var p := (d: int) => d in dates;
    forall d ensures p(d) == HasCompletedOn(tasks, d) {
      CompletedDatesMembers(tasks, d);
    }
    DaysBackCount(tasks, today, 7, p);
  }

  /** There are seven days to count, and each needs a completed task of its own. */
  lemma StreakBounds(tasks: seq<Task>, today: int)
    ensures Streak(tasks, today) <= 7
    ensures Streak(tasks, today) <= |CompletedTasks(tasks)|
  {
    var dates := CompletedDates(tasks);
    var p := (d: int) => d in dates;
    var days := Last7Days(today);
    var hits := Filter(days, p);
    assert NoDup(days);
    FilterNoDup(days, p);
    NoDupWithin(hits, Elements(dates));
    ElementsCard(dates);
  }

  // ---------------------------------------------------------------------------
  // the statistics

  predicate IsHighPriority(t: Task)
  {
    t.priority == High
  }

  /** `completionRate`: the percentage of tasks completed, 0 when there are none. */
  function CompletionRate(completed: nat, total: nat): (r: real)
    requires completed <= total
    ensures total == 0 ==> r == 0.0
    ensures 0.0 <= r <= 100.0
    ensures total > 0 ==> r * total as real == 100.0 * completed as real
  {
    if total > 0 then
      var q := completed as real / total as real;
      assert q * total as real == completed as real;
      assert q <= 1.0 by {
        if q > 1.0 {
          assert false;
        }
      }
      q * 100.0
    else 0.0
  }

  /** The `stats` memo; `now` is the current moment, `DayOf(now)` today's date. */
  function EvaluateStats(tasks: seq<Task>, now: int): (r: AchievementStats)
    ensures r.totalTasks == |tasks|
    ensures r.totalCompleted == |CompletedTasks(tasks)| <= r.totalTasks
    ensures r.completionRate == CompletionRate(r.totalCompleted, r.totalTasks)
    ensures 0.0 <= r.completionRate <= 100.0
    ensures r.currentStreak == DaysWithCompletedTask(tasks, DayOf(now), 7)
    ensures r.currentStreak <= 7 && r.currentStreak <= r.totalCompleted
    ensures r.maxStreak == r.currentStreak
    ensures r.subjectsCount == |DistinctSubjects(tasks)| <= r.totalTasks
    ensures r.highPriorityCompleted == |Filter(CompletedTasks(tasks), IsHighPriority)| <= r.totalCompleted
  {
    var done := CompletedTasks(tasks);
    var streak := Streak(tasks, DayOf(now));
    FilterPartition(tasks, IsCompleted, IsPending);
    StreakBounds(tasks, DayOf(now));
    StreakCountsDays(tasks, DayOf(now));
    AchievementStats(
      |done|,
      |tasks|,
      CompletionRate(|done|, |tasks|),
      |DistinctSubjects(tasks)|,
      streak,
      Max(streak, streak),
      |Filter(done, IsHighPriority)|)
  }

  /** `Math.max`. */
  function Max(a: int, b: int): (m: int)
    ensures m >= a && m >= b && (m == a || m == b)
  {
    if a >= b then a else b
  }

  /** `Math.round` on the non-negative values it is applied to here. */
  function Round(x: real): (n: int)
    ensures n as real - 0.5 <= x < n as real + 0.5
  {
    (x + 0.5).Floor
  }

  // ---------------------------------------------------------------------------
  // the badges

  /** Indices of the badges in the table. */
  const FirstTask := 0
  const TaskMaster := 1
  const TaskLegend := 2
  const Streak3 := 3
  const Streak7 := 4
  const MultiSubject := 5
  const SubjectMaster := 6
  const Efficient := 7
  const PriorityMaster := 8

  function Badge(id: string, title: string, description: string, category: Category,
                 threshold: int, current: int): Achievement
  {
    Achievement(id, title, description, category, threshold, current, current >= threshold)
  }

  /**
   * The `achievements` table. Every badge but `efficient` is unlocked exactly when its
   * current value reaches its threshold; `efficient` shows the rounded rate but
   * unlocks on the unrounded one.
   */
  function BuildAchievements(st: AchievementStats): (r: seq<Achievement>)
    ensures |r| == 9
    ensures forall i :: 0 <= i < 9 && i != Efficient ==> (r[i].unlocked <==> r[i].current >= r[i].threshold)
    ensures r[Efficient].current == Round(st.completionRate)
    ensures r[Efficient].unlocked <==> st.completionRate >= 80.0
    ensures forall i :: 0 <= i < 9 ==> r[i].threshold >= 1
  {
    [ Badge("first-task", "Primera Tarea", "Completa tu primera tarea",
            TasksCategory, 1, st.totalCompleted),
      Badge("task-master", "Maestro de Tareas", "Completa 10 tareas",
            TasksCategory, 10, st.totalCompleted),
      Badge("task-legend", "Leyenda de Tareas", "Completa 50 tareas",
            TasksCategory, 50, st.totalCompleted),
      Badge("streak-3", "Racha de 3", "Completa tareas por 3 días seguidos",
            Consistency, 3, st.currentStreak),
      Badge("streak-7", "Semana Perfecta", "Completa tareas por 7 días seguidos",
            Consistency, 7, st.currentStreak),
      Badge("multi-subject", "Estudiante Versátil", "Crea tareas en 3 materias diferentes",
            SubjectsCategory, 3, st.subjectsCount),
      Badge("subject-master", "Maestro Multidisciplinar", "Crea tareas en 5 materias diferentes",
            SubjectsCategory, 5, st.subjectsCount),
      Achievement("efficient", "Estudiante Eficiente", "Mantén 80% de tareas completadas",
                  Speed, 80, Round(st.completionRate), st.completionRate >= 80.0),
      Badge("priority-master", "Maestro de Prioridades", "Completa 5 tareas de alta prioridad",
            Speed, 5, st.highPriorityCompleted) ]
  }

  /** The badges' ids, in table order. */
  lemma BadgeIds(st: AchievementStats)
    ensures var r := BuildAchievements(st);
      [r[0].id, r[1].id, r[2].id, r[3].id, r[4].id, r[5].id, r[6].id, r[7].id, r[8].id]
      == ["first-task", "task-master", "task-legend", "streak-3", "streak-7",
          "multi-subject", "subject-master", "efficient", "priority-master"]
  {
  }

  predicate IsUnlocked(a: Achievement)
  {
    a.unlocked
  }

  predicate IsLocked(a: Achievement)
  {
    !a.unlocked
  }

  /** `unlockedAchievements` and `lockedAchievements`. */
  function Split(badges: seq<Achievement>): (r: (seq<Achievement>, seq<Achievement>))
    ensures forall a :: a in r.0 ==> a in badges && a.unlocked
    ensures forall a :: a in r.1 ==> a in badges && !a.unlocked
    ensures multiset(r.0) + multiset(r.1) == multiset(badges)
    ensures IsSubseq(r.0, badges) && IsSubseq(r.1, badges)
  {
    FilterPartition(badges, IsUnlocked, IsLocked);
    FilterIsSubseq(badges, IsUnlocked);
    FilterIsSubseq(badges, IsLocked);
    (Filter(badges, IsUnlocked), Filter(badges, IsLocked))
  }

  /** Unlocking `efficient` always shows a current value of at least 80. */
  lemma EfficientShowsThreshold(st: AchievementStats)
    ensures var e := BuildAchievements(st)[Efficient];
      e.unlocked ==> e.current >= e.threshold
  {
  }

  /**
   * The converse fails: 159 of 200 tasks completed is a rate of 79.5, which shows as
   * 80 against a threshold of 80 and still leaves the badge locked.
   */
  lemma EfficientRoundingGap(st: AchievementStats)
    requires st.completionRate == CompletionRate(159, 200)
    ensures var e := BuildAchievements(st)[Efficient];
      e.current == e.threshold && !e.unlocked
  {
    assert st.completionRate == 79.5;
  }

  /** In integers: a rate of at least 80 means `100 * completed >= 80 * total` with tasks present. */
  lemma RateAtLeast80(completed: nat, total: nat)
    requires completed <= total
    ensures CompletionRate(completed, total) >= 80.0 <==> total > 0 && 100 * completed >= 80 * total
  {
    if total > 0 {
      var c, n := completed as real, total as real;
      ScaledThreshold(CompletionRate(completed, total), n, c);
      assert (100 * completed) as real == 100.0 * c && (80 * total) as real == 80.0 * n;
    }
  }

  /** When `rate * n == 100 * c` with `n` positive, `rate >= 80` means `100 * c >= 80 * n`. */
  lemma ScaledThreshold(rate: real, n: real, c: real)
    requires n > 0.0 && rate * n == 100.0 * c
    ensures rate >= 80.0 <==> 100.0 * c >= 80.0 * n
  {
    assert (rate - 80.0) * n == 100.0 * c - 80.0 * n;
    if rate >= 80.0 {
      MulNonNegative(rate - 80.0, n);
    } else {
      MulPositive(80.0 - rate, n);
    }
  }

  lemma MulNonNegative(x: real, y: real)
    requires x >= 0.0 && y >= 0.0
    ensures x * y >= 0.0
  {
  }

  lemma MulPositive(x: real, y: real)
    requires x > 0.0 && y > 0.0
    ensures x * y > 0.0
  {
  }

  /** `efficient` unlocks exactly when `100 * completed >= 80 * total` with tasks present. */
  lemma EfficientIntegerForm(tasks: seq<Task>, now: int)
    ensures var st := EvaluateStats(tasks, now);
      BuildAchievements(st)[Efficient].unlocked
      <==> st.totalTasks > 0 && 100 * st.totalCompleted >= 80 * st.totalTasks
  {
    var st := EvaluateStats(tasks, now);
    RateAtLeast80(st.totalCompleted, st.totalTasks);
  }

  /** Higher tiers imply the lower ones. */
  lemma TiersMonotone(st: AchievementStats)
    ensures var r := BuildAchievements(st);
      && (r[TaskLegend].unlocked ==> r[TaskMaster].unlocked)
      && (r[TaskMaster].unlocked ==> r[FirstTask].unlocked)
      && (r[Streak7].unlocked ==> r[Streak3].unlocked)
      && (r[SubjectMaster].unlocked ==> r[MultiSubject].unlocked)
  {
  }

  /** With no tasks the rate is 0 and every badge is locked. */
  lemma NoTasksNothingUnlocked(now: int)
    ensures EvaluateStats([], now).completionRate == 0.0
    ensures Split(BuildAchievements(EvaluateStats([], now))).0 == []
    ensures Split(BuildAchievements(EvaluateStats([], now))).1 == BuildAchievements(EvaluateStats([], now))
  {
    var r := BuildAchievements(EvaluateStats([], now));
    assert forall a :: a in r ==> !a.unlocked;
    FilterKeepsNone(r, IsUnlocked);
    FilterKeepsAll(r, IsLocked);
  }

  lemma OnlyThatDay(t: Task, i: int, today: int)
    requires DayOf(t.dueDate) == today && i != 0
    ensures !HasCompletedOn([t], today - i)
  {
  }

  /** One completed task due today: the first badge unlocks and the streak is 1. */
  lemma OneTaskDoneToday(t: Task, now: int)
    requires t.completed && DayOf(t.dueDate) == DayOf(now)
    ensures EvaluateStats([t], now).currentStreak == 1
    ensures BuildAchievements(EvaluateStats([t], now))[FirstTask].unlocked
  {
    var today := DayOf(now);
    StreakCountsDays([t], today);
    assert HasCompletedOn([t], today);
    OnlyThatDay(t, 1, today); OnlyThatDay(t, 2, today); OnlyThatDay(t, 3, today);
    OnlyThatDay(t, 4, today); OnlyThatDay(t, 5, today); OnlyThatDay(t, 6, today);
    assert DaysWithCompletedTask([t], today, 1) == 1;
    assert DaysWithCompletedTask([t], today, 2) == 1;
    assert DaysWithCompletedTask([t], today, 3) == 1;
    assert DaysWithCompletedTask([t], today, 4) == 1;
    assert DaysWithCompletedTask([t], today, 5) == 1;
    assert DaysWithCompletedTask([t], today, 6) == 1;
  }
}
