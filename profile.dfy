/**
 * The profile page (src/pages/Profile.tsx): a persisted user profile edited through a
 * form copy, a list of goals in that copy, the initials shown in the avatar, and
 * counts over the task list.
 */
module Profile {
  import opened Seqs
  import opened Text
  import opened Tasks

  datatype UserProfile = UserProfile(
    name: string,
    email: string,
    avatar: string,
    bio: string,
    institution: string,
    career: string,
    semester: string,
    goals: seq<string>)

  /** The profile stored before the user has saved one. */
  function EmptyProfile(): (p: UserProfile)
    ensures p.name == p.email == p.avatar == p.bio == p.institution == p.career == p.semester == []
    ensures p.goals == []
  {
    UserProfile([], [], [], [], [], [], [], [])
  }

  // ---------------------------------------------------------------------------
  // the form's text fields (the avatar has no input)

  datatype ProfileField = NameField | EmailField | BioField | InstitutionField | CareerField | SemesterField

  function FieldOf(p: UserProfile, field: ProfileField): string
  {
    match field
    case NameField => p.name
    case EmailField => p.email
    case BioField => p.bio
    case InstitutionField => p.institution
    case CareerField => p.career
    case SemesterField => p.semester
  }

  /** `setEditForm({ ...editForm, [field]: value })`: that field changes, nothing else. */
  function SetField(p: UserProfile, field: ProfileField, value: string): (r: UserProfile)
    ensures FieldOf(r, field) == value
    ensures forall g :: g != field ==> FieldOf(r, g) == FieldOf(p, g)
    ensures r.avatar == p.avatar && r.goals == p.goals
  {
    match field
    case NameField => p.(name := value)
    case EmailField => p.(email := value)
    case BioField => p.(bio := value)
    case InstitutionField => p.(institution := value)
    case CareerField => p.(career := value)
    case SemesterField => p.(semester := value)
  }

  // ---------------------------------------------------------------------------
  // goals

  /** `addGoal` on the goal list: append the trimmed text unless it is empty. */
  function GoalsAfterAdd(goals: seq<string>, newGoal: string): (r: seq<string>)
    ensures Trim(newGoal) != [] ==> r == goals + [Trim(newGoal)]
    ensures Trim(newGoal) == [] ==> r == goals
  {
    var goal := Trim(newGoal);
    if goal != [] then goals + [goal] else goals
  }

  /**
   * `goals.filter((_, i) => i !== index)`: position `index` goes and the rest keep
   * their order; an index outside the list removes nothing.
   */
  function RemoveIndex(goals: seq<string>, index: int): (r: seq<string>)
    ensures 0 <= index < |goals| ==> r == goals[..index] + goals[index + 1..]
    ensures !(0 <= index < |goals|) ==> r == goals
  {
    if goals == [] then []
    else
      var rest := RemoveIndex(goals[1..], index - 1);
      if index == 0 then
        rest
      else
        assert 0 < index < |goals| ==> goals[..index] == [goals[0]] + goals[1..][..index - 1];
        assert goals == [goals[0]] + goals[1..];
        [goals[0]] + rest
  }

  /** Adding a goal and then removing the last position restores the goal list. */
  lemma AddThenRemoveLast(goals: seq<string>, newGoal: string)
    ensures RemoveIndex(GoalsAfterAdd(goals, newGoal), |goals|) == goals
  {
    if Trim(newGoal) != [] {
      assert (goals + [Trim(newGoal)])[..|goals|] == goals;
    }
  }

  /** A removal shortens the list by one exactly when the index is in range. */
  lemma RemoveIndexLength(goals: seq<string>, index: int)
    ensures |RemoveIndex(goals, index)| == if 0 <= index < |goals| then |goals| - 1 else |goals|
  {
  }

  /** An added goal is never blank and has no white space at either end. */
  lemma AddedGoalTrimmed(goals: seq<string>, newGoal: string)
    requires |GoalsAfterAdd(goals, newGoal)| > |goals|
    ensures var g := GoalsAfterAdd(goals, newGoal)[|goals|];
      g != [] && !IsWhite(g[0]) && !IsWhite(g[|g| - 1])
  {
    var t := Trim(newGoal);
    var r := GoalsAfterAdd(goals, newGoal);
    assert t != [] && r == goals + [t];
    assert r[|goals|] == t;
  }

  // ---------------------------------------------------------------------------
  // initials

  /** `.map(n => n[0]).join('')`: the first letter of each word; an empty word adds nothing. */
  function FirstLetters(words: seq<string>): string
  {
    if words == [] then []
    else (if words[0] == [] then [] else [words[0][0]]) + FirstLetters(words[1..])
  }

  predicate IsWord(w: string)
  {
    w != []
  }

  /** `getInitials(name)`. */
  function Initials(name: string): (r: string)
    ensures |r| <= 2
  {
    Take(Upper(FirstLetters(Split(name, ' '))), 2)
  }

  lemma {:induction false} FirstLettersHeads(words: seq<string>)
    ensures |FirstLetters(words)| == |Filter(words, IsWord)|
    ensures forall k :: 0 <= k < |FirstLetters(words)| ==>
              Filter(words, IsWord)[k] != [] && FirstLetters(words)[k] == Filter(words, IsWord)[k][0]
  {
    if words != [] {
      FirstLettersHeads(words[1..]);
    }
    var w := Filter(words, IsWord);
    assert forall k :: 0 <= k < |w| ==> w[k] in w;
  }

  /**
   * The initials are the first letters of the first two non-empty space-separated
   * words, upper-cased; there are fewer when the name has fewer words.
   */
  lemma InitialsOfWords(name: string)
    ensures var words := Filter(Split(name, ' '), IsWord);
      && |Initials(name)| == (if |words| < 2 then |words| else 2)
      && forall k :: 0 <= k < |Initials(name)| ==> words[k] != [] && Initials(name)[k] == ToUpperChar(words[k][0])
  {
    FirstLettersHeads(Split(name, ' '));
  }

  /** No initial is a space. */
  lemma InitialsHaveNoSpace(name: string)
    ensures ' ' !in Initials(name)
  {
    var words := Filter(Split(name, ' '), IsWord);
    InitialsOfWords(name);
    forall k | 0 <= k < |Initials(name)| ensures Initials(name)[k] != ' ' {
      assert words[k] in words;
      assert words[k][0] in words[k];
    }
  }

  /** An empty name has no initials. */
  lemma EmptyNameNoInitials()
    ensures Initials([]) == []
  {
  }

  // ---------------------------------------------------------------------------
  // counts over the tasks

  datatype ProfileCounts = ProfileCounts(completedTasks: nat, totalTasks: nat, subjects: nat)

  /** `completedTasks`, `totalTasks` and the number of distinct subjects. */
  function Counts(tasks: seq<Task>): (r: ProfileCounts)
    ensures r.totalTasks == |tasks|
    ensures r.completedTasks <= r.totalTasks
    ensures r.subjects == |DistinctSubjects(tasks)| <= r.totalTasks
    ensures r.completedTasks == |CompletedTasks(tasks)|
  {
    ProfileCounts(|CompletedTasks(tasks)|, |tasks|, |DistinctSubjects(tasks)|)
  }

  /** `tasks.slice(0, 5)`: the first five tasks, or all of them when there are fewer. */
  function RecentActivity(tasks: seq<Task>): (r: seq<Task>)
    ensures |r| == if |tasks| < 5 then |tasks| else 5
    ensures r == tasks[..|r|]
  {
    Take(tasks, 5)
  }

  // ---------------------------------------------------------------------------
  // the page

  class ProfilePage {
    var profile: UserProfile
    var tasks: seq<Task>
    var isEditing: bool
    var editForm: UserProfile
    var newGoal: string

    /** The form starts as a copy of the profile read at mount. */
    constructor (stored: UserProfile, storedTasks: seq<Task>)
      ensures profile == stored && tasks == storedTasks && editForm == stored
      ensures !isEditing && newGoal == []
    {
      profile := stored;
      tasks := storedTasks;
      isEditing := false;
      editForm := stored;
      newGoal := [];
    }

    /** `handleSave`: the form becomes the profile and editing ends. */
    method HandleSave()
      modifies this
      ensures profile == old(editForm) && !isEditing
      ensures editForm == old(editForm) && newGoal == old(newGoal) && tasks == old(tasks)
    {
      profile := editForm;
      isEditing := false;
    }

    /** The "Editar" button: editing starts; the form keeps whatever it held. */
    method StartEditing()
      modifies this
      ensures isEditing
      ensures profile == old(profile) && editForm == old(editForm) && newGoal == old(newGoal) && tasks == old(tasks)
    {
      isEditing := true;
    }

    /** `addGoal`: append the trimmed goal and clear the input, unless it is blank. */
    method AddGoal()
      modifies this
      ensures editForm == old(editForm).(goals := GoalsAfterAdd(old(editForm.goals), old(newGoal)))
      ensures newGoal == if Trim(old(newGoal)) != [] then [] else old(newGoal)
      ensures profile == old(profile) && isEditing == old(isEditing) && tasks == old(tasks)
    {
      var goal := Trim(newGoal);
      if goal != [] {
        editForm := editForm.(goals := editForm.goals + [goal]);
        newGoal := [];
      }
    }

    /** `removeGoal(index)`. */
    method RemoveGoal(index: int)
      modifies this
      ensures editForm == old(editForm).(goals := RemoveIndex(old(editForm.goals), index))
      ensures profile == old(profile) && isEditing == old(isEditing) && newGoal == old(newGoal) && tasks == old(tasks)
    {
      editForm := editForm.(goals := RemoveIndex(editForm.goals, index));
    }

    /** The goal input's change handler. */
    method SetNewGoal(text: string)
      modifies this
      ensures newGoal == text
      ensures profile == old(profile) && isEditing == old(isEditing) && editForm == old(editForm) && tasks == old(tasks)
    {
      newGoal := text;
    }

    /** A text input's change handler. */
    method EditField(field: ProfileField, value: string)
      modifies this
      ensures editForm == SetField(old(editForm), field, value)
      ensures profile == old(profile) && isEditing == old(isEditing) && newGoal == old(newGoal) && tasks == old(tasks)
    {
      editForm := SetField(editForm, field, value);
    }

    /** What the page shows beside the form: initials, counts and recent tasks. */
    method Summary() returns (initials: string, counts: ProfileCounts, recent: seq<Task>)
      ensures |initials| <= 2 && initials == Initials(profile.name)
      ensures counts == Counts(tasks)
      ensures counts.completedTasks <= counts.totalTasks == |tasks| && counts.subjects <= counts.totalTasks
      ensures recent == RecentActivity(tasks)
    {
      initials := Initials(profile.name);
      counts := Counts(tasks);
      recent := RecentActivity(tasks);
    }
  }
}
