/**
 * The weekly class schedule (src/pages/Schedule.tsx): a persisted list of classes, a
 * dialog with a form that adds a class or edits the one being edited, deletion by id,
 * and the per-day lists ordered by start time.
 */
module Schedule {
  import opened Wrappers
  import opened Seqs
  import opened Text

  /** A class in the timetable; `startTime` and `endTime` are "HH:MM" strings. */
  datatype ScheduleItem = ScheduleItem(
    id: string,
    subject: string,
    teacher: string,
    day: string,
    startTime: string,
    endTime: string,
    classroom: string,
    color: string)

  /** The dialog's form: a class without its id. */
  datatype ScheduleForm = ScheduleForm(
    subject: string,
    teacher: string,
    day: string,
    startTime: string,
    endTime: string,
    classroom: string,
    color: string)

  /** `daysOfWeek`: the six days the page shows, Monday to Saturday. */
  const DaysOfWeek: seq<string> := ["Lunes", "Martes", "Miércoles", "Jueves", "Viernes", "Sábado"]

  /** `colors`: the palette offered for a class. */
  const Colors: seq<string> := ["#3b82f6", "#ef4444", "#10b981", "#f59e0b", "#8b5cf6", "#ec4899"]

  /** The form's initial and reset value: every text empty, the first palette colour. */
  function EmptyForm(): (f: ScheduleForm)
    ensures f.subject == f.teacher == f.day == f.startTime == f.endTime == f.classroom == []
    ensures f.color == Colors[0] == "#3b82f6"
  {
    ScheduleForm([], [], [], [], [], [], Colors[0])
  }

  /** `{ ...form, id }`. */
  function WithId(form: ScheduleForm, id: string): (item: ScheduleItem)
    ensures item.id == id && FormOf(item) == form
  {
    ScheduleItem(id, form.subject, form.teacher, form.day, form.startTime, form.endTime,
                 form.classroom, form.color)
  }

  /** The form loaded from an item (`setFormData(item)`); its id is never read back. */
  function FormOf(item: ScheduleItem): ScheduleForm
  {
    ScheduleForm(item.subject, item.teacher, item.day, item.startTime, item.endTime,
                 item.classroom, item.color)
  }

  lemma FormRoundTrip(item: ScheduleItem)
    ensures WithId(FormOf(item), item.id) == item
  {
  }

  // ---------------------------------------------------------------------------
  // the form's fields

  datatype FormField = SubjectField | TeacherField | DayField | StartTimeField
                     | EndTimeField | ClassroomField | ColorField

  /** The value of one field of the form. */
  function FieldOf(form: ScheduleForm, field: FormField): string
  {
    match field
    case SubjectField => form.subject
    case TeacherField => form.teacher
    case DayField => form.day
    case StartTimeField => form.startTime
    case EndTimeField => form.endTime
    case ClassroomField => form.classroom
    case ColorField => form.color
  }

  /** `setFormData({ ...formData, [field]: value })`, as each input's handler does. */
  function SetField(form: ScheduleForm, field: FormField, value: string): (r: ScheduleForm)
    ensures FieldOf(r, field) == value
    ensures forall g :: g != field ==> FieldOf(r, g) == FieldOf(form, g)
  {
    match field
    case SubjectField => form.(subject := value)
    case TeacherField => form.(teacher := value)
    case DayField => form.(day := value)
    case StartTimeField => form.(startTime := value)
    case EndTimeField => form.(endTime := value)
    case ClassroomField => form.(classroom := value)
    case ColorField => form.(color := value)
  }

  /** A form is determined by its fields. */
  lemma FieldsDetermineForm(a: ScheduleForm, b: ScheduleForm)
    requires forall g :: FieldOf(a, g) == FieldOf(b, g)
    ensures a == b
  {
    assert FieldOf(a, SubjectField) == FieldOf(b, SubjectField);
    assert FieldOf(a, TeacherField) == FieldOf(b, TeacherField);
    assert FieldOf(a, DayField) == FieldOf(b, DayField);
    assert FieldOf(a, StartTimeField) == FieldOf(b, StartTimeField);
    assert FieldOf(a, EndTimeField) == FieldOf(b, EndTimeField);
    assert FieldOf(a, ClassroomField) == FieldOf(b, ClassroomField);
    assert FieldOf(a, ColorField) == FieldOf(b, ColorField);
  }

  /** Writing back a field's own value changes nothing. */
  lemma SetFieldSame(form: ScheduleForm, field: FormField)
    ensures SetField(form, field, FieldOf(form, field)) == form
  {
    FieldsDetermineForm(SetField(form, field, FieldOf(form, field)), form);
  }

  // ---------------------------------------------------------------------------
  // the list operations

  /** `[...schedule, { ...formData, id }]`. */
  function Appended(schedule: seq<ScheduleItem>, form: ScheduleForm, id: string): (r: seq<ScheduleItem>)
    ensures |r| == |schedule| + 1
    ensures r[..|schedule|] == schedule
    ensures r[|schedule|].id == id && FormOf(r[|schedule|]) == form
  {
    schedule + [WithId(form, id)]
  }

  /** `schedule.map(item => item.id === id ? { ...formData, id } : item)`. */
  function ReplaceById(schedule: seq<ScheduleItem>, id: string, form: ScheduleForm): (r: seq<ScheduleItem>)
    ensures |r| == |schedule|
    ensures forall i :: 0 <= i < |schedule| && schedule[i].id == id ==> r[i] == WithId(form, id)
    ensures forall i :: 0 <= i < |schedule| && schedule[i].id != id ==> r[i] == schedule[i]
  {
    seq(|schedule|, i requires 0 <= i < |schedule| =>
      if schedule[i].id == id then WithId(form, id) else schedule[i])
  }

  /** `schedule.filter(item => item.id !== id)`. */
  function RemoveById(schedule: seq<ScheduleItem>, id: string): (r: seq<ScheduleItem>)
    ensures IsSubseq(r, schedule)
    ensures forall x :: x in r ==> x in schedule && x.id != id
    ensures forall x :: x in schedule && x.id != id ==> x in r
  {
    var p := (x: ScheduleItem) => x.id != id;
    FilterIsSubseq(schedule, p);
    FilterMembers(schedule, p);
    Filter(schedule, p)
  }

  predicate HasId(schedule: seq<ScheduleItem>, id: string)
  {
    exists x :: x in schedule && x.id == id
  }

  /** Adding a class under an unused id and deleting that id restores the schedule. */
  lemma RemoveAfterAppend(schedule: seq<ScheduleItem>, form: ScheduleForm, id: string)
    requires !HasId(schedule, id)
    ensures RemoveById(Appended(schedule, form, id), id) == schedule
  {
    var p := (x: ScheduleItem) => x.id != id;
    FilterConcat(schedule, [WithId(form, id)], p);
    FilterKeepsAll(schedule, p);
  }

  /** Editing an id no class has changes nothing. */
  lemma ReplaceUnknown(schedule: seq<ScheduleItem>, id: string, form: ScheduleForm)
    requires !HasId(schedule, id)
    ensures ReplaceById(schedule, id, form) == schedule
  {
    assert forall i :: 0 <= i < |schedule| ==> schedule[i].id != id by {
      forall i | 0 <= i < |schedule| ensures schedule[i].id != id {
        assert schedule[i] in schedule;
      }
    }
  }

  /** A delete removes exactly the classes with the id. */
  lemma RemoveCount(schedule: seq<ScheduleItem>, id: string)
    ensures |RemoveById(schedule, id)| + |Filter(schedule, (x: ScheduleItem) => x.id == id)| == |schedule|
    ensures !HasId(RemoveById(schedule, id), id)
  {
    FilterPartition(schedule, (x: ScheduleItem) => x.id != id, (x: ScheduleItem) => x.id == id);
  }

  // ---------------------------------------------------------------------------
  // the per-day lists

  /** `a.startTime.localeCompare(b.startTime) <= 0`. */
  predicate StartLe(a: ScheduleItem, b: ScheduleItem)
  {
    LexLe(a.startTime, b.startTime)
  }

  lemma StartLeTotalPreorder()
    ensures TotalPreorder(StartLe)
  {
    forall a: ScheduleItem, b: ScheduleItem ensures StartLe(a, b) || StartLe(b, a) {
      LexLeTotal(a.startTime, b.startTime);
    }
    forall a: ScheduleItem, b: ScheduleItem, c: ScheduleItem | StartLe(a, b) && StartLe(b, c)
      ensures StartLe(a, c)
    {
      LexLeTrans(a.startTime, b.startTime, c.startTime);
    }
  }

  /**
   * `getScheduleForDay(day)`: the classes held on `day`, as a permutation of that
   * filter, ordered by start time.
   */
  function ScheduleForDay(schedule: seq<ScheduleItem>, day: string): (r: seq<ScheduleItem>)
    ensures multiset(r) == multiset(Filter(schedule, HeldOn(day)))
    ensures Sorted(r, StartLe)
    ensures forall x :: x in r ==> x in schedule && x.day == day
    ensures forall x :: x in schedule && x.day == day ==> x in r
  {
    var onDay := Filter(schedule, HeldOn(day));
    FilterMembers(schedule, HeldOn(day));
    StartLeTotalPreorder();
    SortSorted(onDay, StartLe);
    var r := Sort(onDay, StartLe);
    forall x ensures x in r <==> x in onDay {
      assert x in r <==> x in multiset(r);
      assert x in onDay <==> x in multiset(onDay);
    }
    r
  }

  /** `item => item.day === day`. */
  function HeldOn(day: string): ScheduleItem -> bool
  {
    (x: ScheduleItem) => x.day == day
  }

  /** Classes starting at the same time keep their order in the schedule. */
  lemma SameStartKeepsOrder(schedule: seq<ScheduleItem>, day: string, start: string)
    ensures Filter(ScheduleForDay(schedule, day), (x: ScheduleItem) => x.startTime == start)
         == Filter(Filter(schedule, HeldOn(day)), (x: ScheduleItem) => x.startTime == start)
  {
    StartLeTotalPreorder();
    forall a: ScheduleItem, b: ScheduleItem | a.startTime == start && b.startTime == start
      ensures StartLe(a, b) && StartLe(b, a)
    {
      LexLeTotal(a.startTime, b.startTime);
    }
    SortStable(Filter(schedule, HeldOn(day)), StartLe,
               (x: ScheduleItem) => x.startTime == start);
  }

  lemma DaysOfWeekDistinct()
    ensures NoDup(DaysOfWeek)
  {
  }

  lemma {:induction false} CountEqual(s: seq<string>, x: string)
    requires NoDup(s)
    ensures |Filter(s, (d: string) => d == x)| == if x in s then 1 else 0
  {
    if s != [] {
      assert NoDup(s[1..]);
      CountEqual(s[1..], x);
      if s[0] == x {
        assert forall i :: 0 <= i < |s[1..]| ==> s[1..][i] == s[i + 1] != s[0];
      }
      assert s == [s[0]] + s[1..];
    }
  }

  /**
   * The page renders one list per entry of `daysOfWeek`: a class held on one of those
   * days is in exactly one of them (its own day's), and a class with any other day,
   * the empty one included, is in none.
   */
  lemma ShownOnOwnDayOnly(schedule: seq<ScheduleItem>, item: ScheduleItem)
    requires item in schedule
    ensures forall d :: d in DaysOfWeek ==> (item in ScheduleForDay(schedule, d) <==> d == item.day)
    ensures |Filter(DaysOfWeek, (d: string) => item in ScheduleForDay(schedule, d))|
            == if item.day in DaysOfWeek then 1 else 0
  {
    FilterExt(DaysOfWeek, (d: string) => item in ScheduleForDay(schedule, d), (d: string) => d == item.day);
    DaysOfWeekDistinct();
    CountEqual(DaysOfWeek, item.day);
  }

  // ---------------------------------------------------------------------------
  // the page

  class SchedulePage {
    var schedule: seq<ScheduleItem>
    var isDialogOpen: bool
    var editingItem: Option<ScheduleItem>
    var formData: ScheduleForm

    constructor (stored: seq<ScheduleItem>)
      ensures schedule == stored && !isDialogOpen && editingItem == None && formData == EmptyForm()
    {
      schedule := stored;
      isDialogOpen := false;
      editingItem := None;
      formData := EmptyForm();
    }

    /**
     * `handleSubmit`: edit the class being edited, or add the form as a new class;
     * then close the dialog, stop editing and reset the form.
     */
    method HandleSubmit(freshId: string)
      modifies this
      ensures old(editingItem) != None ==>
                schedule == ReplaceById(old(schedule), old(editingItem).value.id, old(formData))
      ensures old(editingItem) == None ==> schedule == Appended(old(schedule), old(formData), freshId)
      ensures !isDialogOpen && editingItem == None && formData == EmptyForm()
    {
      if editingItem != None {
        schedule := ReplaceById(schedule, editingItem.value.id, formData);
      } else {
        schedule := schedule + [WithId(formData, freshId)];
      }
      isDialogOpen := false;
      editingItem := None;
      formData := EmptyForm();
    }

    /** `handleEdit`: load the class into the form, enter edit mode, open the dialog. */
    method HandleEdit(item: ScheduleItem)
      modifies this
      ensures editingItem == Some(item) && formData == FormOf(item) && isDialogOpen
      ensures schedule == old(schedule)
    {
      editingItem := Some(item);
      formData := FormOf(item);
      isDialogOpen := true;
    }

    /** `handleDelete`. */
    method HandleDelete(id: string)
      modifies this
      ensures schedule == RemoveById(old(schedule), id)
      ensures isDialogOpen == old(isDialogOpen) && editingItem == old(editingItem) && formData == old(formData)
    {
      schedule := RemoveById(schedule, id);
    }

    /**
     * The dialog's `onOpenChange`: it only opens or closes the dialog, so closing it
     * without submitting keeps the edit target and the form as they were.
     */
    method SetDialogOpen(open: bool)
      modifies this
      ensures isDialogOpen == open
      ensures schedule == old(schedule) && editingItem == old(editingItem) && formData == old(formData)
    {
      isDialogOpen := open;
    }

    /** An input's change handler: one field of the form takes the new value. */
    method EditField(field: FormField, value: string)
      modifies this
      ensures formData == SetField(old(formData), field, value)
      ensures schedule == old(schedule) && editingItem == old(editingItem) && isDialogOpen == old(isDialogOpen)
    {
      formData := SetField(formData, field, value);
    }

    /** A palette button: the form takes the `k`-th colour. */
    method PickColor(k: nat)
      requires k < |Colors|
      modifies this
      ensures formData == old(formData).(color := Colors[k])
      ensures schedule == old(schedule) && editingItem == old(editingItem) && isDialogOpen == old(isDialogOpen)
    {
      formData := formData.(color := Colors[k]);
    }

    /** The list under one day's heading. */
    method DayList(day: string) returns (r: seq<ScheduleItem>)
      ensures r == ScheduleForDay(schedule, day)
      ensures Sorted(r, StartLe)
      ensures forall x :: x in r <==> x in schedule && x.day == day
    {
      r := ScheduleForDay(schedule, day);
    }
  }
}
