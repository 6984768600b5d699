/**
 * The settings page (src/pages/Settings.tsx): the persisted `AppSettings` record and
 * its single-field update, the export bundle and its file name, the import of a
 * parsed backup, and the confirmed reset of all data.
 */
module Settings {
  import opened Wrappers
  import opened Text
  import opened Tasks

  datatype WeekStart = Monday | Sunday

  datatype AppSettings = AppSettings(
    notifications: bool,
    autoSave: bool,
    compactView: bool,
    showCompleted: bool,
    defaultPriority: Priority,
    weekStartsOn: WeekStart)

  /** The record used when nothing is stored and after a reset. */
  const DefaultSettings: AppSettings :=
    AppSettings(true, true, false, true, Medium, Monday)

  // ---------------------------------------------------------------------------
  // updateSetting

  datatype SettingKey = Notifications | AutoSave | CompactView | ShowCompleted | DefaultPriority | WeekStartsOn

  datatype SettingValue = BoolValue(b: bool) | PriorityValue(p: Priority) | WeekValue(w: WeekStart)

  /** One control's change: the key it names together with a value of that key's type. */
  datatype SettingUpdate =
    | SetNotifications(on: bool)
    | SetAutoSave(on: bool)
    | SetCompactView(on: bool)
    | SetShowCompleted(on: bool)
    | SetDefaultPriority(priority: Priority)
    | SetWeekStartsOn(start: WeekStart)

  function KeyOf(u: SettingUpdate): SettingKey
  {
    match u
    case SetNotifications(_) => Notifications
    case SetAutoSave(_) => AutoSave
    case SetCompactView(_) => CompactView
    case SetShowCompleted(_) => ShowCompleted
    case SetDefaultPriority(_) => DefaultPriority
    case SetWeekStartsOn(_) => WeekStartsOn
  }

  function NewValue(u: SettingUpdate): SettingValue
  {
    match u
    case SetNotifications(on) => BoolValue(on)
    case SetAutoSave(on) => BoolValue(on)
    case SetCompactView(on) => BoolValue(on)
    case SetShowCompleted(on) => BoolValue(on)
    case SetDefaultPriority(p) => PriorityValue(p)
    case SetWeekStartsOn(w) => WeekValue(w)
  }

  /** `settings[key]`. */
  function ValueOf(s: AppSettings, k: SettingKey): SettingValue
  {
    match k
    case Notifications => BoolValue(s.notifications)
    case AutoSave => BoolValue(s.autoSave)
    case CompactView => BoolValue(s.compactView)
    case ShowCompleted => BoolValue(s.showCompleted)
    case DefaultPriority => PriorityValue(s.defaultPriority)
    case WeekStartsOn => WeekValue(s.weekStartsOn)
  }

  /** `{ ...settings, [key]: value }`: the named field takes the value, every other keeps its own. */
  function UpdateSetting(s: AppSettings, u: SettingUpdate): (r: AppSettings)
    ensures ValueOf(r, KeyOf(u)) == NewValue(u)
    ensures forall k :: k != KeyOf(u) ==> ValueOf(r, k) == ValueOf(s, k)
  {
    match u
    case SetNotifications(on) => s.(notifications := on)
    case SetAutoSave(on) => s.(autoSave := on)
    case SetCompactView(on) => s.(compactView := on)
    case SetShowCompleted(on) => s.(showCompleted := on)
    case SetDefaultPriority(p) => s.(defaultPriority := p)
    case SetWeekStartsOn(w) => s.(weekStartsOn := w)
  }

  /** A settings record is determined by its six fields. */
  lemma {:induction false} SettingsByValues(a: AppSettings, b: AppSettings)
    requires forall k :: ValueOf(a, k) == ValueOf(b, k)
    ensures a == b
  {
    assert ValueOf(a, Notifications) == ValueOf(b, Notifications);
    assert ValueOf(a, AutoSave) == ValueOf(b, AutoSave);
    assert ValueOf(a, CompactView) == ValueOf(b, CompactView);
    assert ValueOf(a, ShowCompleted) == ValueOf(b, ShowCompleted);
    assert ValueOf(a, DefaultPriority) == ValueOf(b, DefaultPriority);
    assert ValueOf(a, WeekStartsOn) == ValueOf(b, WeekStartsOn);
  }

  /** Setting a field to the value it already has changes nothing. */
  lemma UpdateToCurrent(s: AppSettings, u: SettingUpdate)
    requires NewValue(u) == ValueOf(s, KeyOf(u))
    ensures UpdateSetting(s, u) == s
  {
    SettingsByValues(UpdateSetting(s, u), s);
  }

  /** Two changes to the same field: the later one wins. */
  lemma UpdateSameKey(s: AppSettings, u: SettingUpdate, v: SettingUpdate)
    requires KeyOf(u) == KeyOf(v)
    ensures UpdateSetting(UpdateSetting(s, u), v) == UpdateSetting(s, v)
  {
    SettingsByValues(UpdateSetting(UpdateSetting(s, u), v), UpdateSetting(s, v));
  }

  /** Changes to different fields can be made in either order. */
  lemma UpdatesCommute(s: AppSettings, u: SettingUpdate, v: SettingUpdate)
    requires KeyOf(u) != KeyOf(v)
    ensures UpdateSetting(UpdateSetting(s, u), v) == UpdateSetting(UpdateSetting(s, v), u)
  {
    SettingsByValues(UpdateSetting(UpdateSetting(s, u), v), UpdateSetting(UpdateSetting(s, v), u));
  }

  // ---------------------------------------------------------------------------
  // export

  /** The object serialised into the backup file. */
  datatype ExportBundle = ExportBundle(tasks: seq<Task>, settings: AppSettings, exportDate: string, version: string)

  /** `data` in `exportData`; `iso` is the moment's `toISOString()`. */
  function Export(tasks: seq<Task>, settings: AppSettings, iso: string): (b: ExportBundle)
    ensures b.tasks == tasks && b.settings == settings
    ensures b.exportDate == iso && b.version == "1.0"
  {
    ExportBundle(tasks, settings, iso, "1.0")
  }

  const BackupPrefix: string := "studyplanner-backup-"
  const BackupSuffix: string := ".json"

  /**
   * The download's name: the part of `iso` before its first 'T' (all of it when there
   * is no 'T'), framed by the prefix and suffix.
   */
  function BackupFileName(iso: string): (name: string)
    ensures |name| == |BackupPrefix| + |Split(iso, 'T')[0]| + |BackupSuffix|
    ensures name[..|BackupPrefix|] == BackupPrefix
    ensures name[|name| - |BackupSuffix|..] == BackupSuffix
    ensures var middle := name[|BackupPrefix|..|name| - |BackupSuffix|];
      && 'T' !in middle
      && StartsWith(iso, middle)
      && ('T' in iso ==> |middle| < |iso| && iso[|middle|] == 'T')
      && ('T' !in iso ==> middle == iso)
  {
    var date := Split(iso, 'T')[0];
    var name := BackupPrefix + date + BackupSuffix;
    assert name[|BackupPrefix|..|name| - |BackupSuffix|] == date;
    SplitFirst(iso, 'T');
    name
  }

  /** For a timestamp `date + "T" + time` whose date part has no 'T', the name carries that date. */
  lemma BackupFileNameOfIso(date: string, time: string)
    requires 'T' !in date
    ensures BackupFileName(date + "T" + time) == BackupPrefix + date + BackupSuffix
  {
    SplitPrefix(date, "T" + time, 'T');
    assert date + "T" + time == date + ("T" + time);
    assert ("T" + time)[0] == 'T';
  }

  /** The file written on 15 March 2024 is "studyplanner-backup-2024-03-15.json". */
  lemma BackupFileNameExample()
    ensures BackupFileName("2024-03-15T10:30:00.000Z") == BackupPrefix + "2024-03-15" + BackupSuffix
  {
    var date, time := "2024-03-15", "10:30:00.000Z";
    assert 'T' !in date by {
      assert forall i :: 0 <= i < |date| ==> date[i] != 'T';
    }
    BackupFileNameOfIso(date, time);
    assert date + "T" + time == "2024-03-15T10:30:00.000Z";
  }

  // ---------------------------------------------------------------------------
  // import

  /**
   * A parsed backup: each key is `Some` when it is present with a truthy value (an
   * array or an object is truthy even when empty) and `None` otherwise.
   */
  datatype ImportedData = ImportedData(tasks: Option<seq<Task>>, settings: Option<AppSettings>)

  /** What the page reports after an import attempt. */
  datatype ImportOutcome = NoFile | Imported | InvalidFile

  /**
   * The `onload` handler. `None` is a file on which `JSON.parse` throws or which parses
   * to `null`: the catch branch, which writes nothing. Any other value (an object, but
   * also a number, string, boolean or array, whose `tasks` and `settings` read as
   * undefined) is `Some`: each present, truthy key replaces its slot and an absent one
   * keeps it, and the import is reported as done.
   */
  function ApplyImport(tasks: seq<Task>, settings: AppSettings, parsed: Option<ImportedData>)
    : (r: (seq<Task>, AppSettings))
    ensures parsed == None ==> r == (tasks, settings)
    ensures parsed != None && parsed.value.tasks != None ==> r.0 == parsed.value.tasks.value
    ensures parsed != None && parsed.value.tasks == None ==> r.0 == tasks
    ensures parsed != None && parsed.value.settings != None ==> r.1 == parsed.value.settings.value
    ensures parsed != None && parsed.value.settings == None ==> r.1 == settings
  {
    match parsed
    case None => (tasks, settings)
    case Some(data) =>
      var t := if data.tasks.Some? then data.tasks.value else tasks;
      var s := if data.settings.Some? then data.settings.value else settings;
      (t, s)
  }

  /** What parsing the serialised bundle gives: both keys present. */
  function Reread(b: ExportBundle): ImportedData
  {
    ImportedData(Some(b.tasks), Some(b.settings))
  }

  /** Importing an exported backup, over any current data, restores what was exported. */
  lemma ExportImportRoundTrip(tasks: seq<Task>, settings: AppSettings, iso: string,
                              current: seq<Task>, currentSettings: AppSettings)
    ensures ApplyImport(current, currentSettings, Some(Reread(Export(tasks, settings, iso)))) == (tasks, settings)
  {
  }

  /** Importing the same backup twice is importing it once. */
  lemma ImportIdempotent(tasks: seq<Task>, settings: AppSettings, parsed: Option<ImportedData>)
    ensures var r := ApplyImport(tasks, settings, parsed);
      ApplyImport(r.0, r.1, parsed) == r
  {
  }

  // ---------------------------------------------------------------------------
  // clear

  /** `clearAllData`: after confirmation no tasks and the default settings; otherwise no change. */
  function ClearAll(tasks: seq<Task>, settings: AppSettings, confirmed: bool): (r: (seq<Task>, AppSettings))
    ensures confirmed ==> r == ([], DefaultSettings)
    ensures !confirmed ==> r == (tasks, settings)
  {
    if confirmed then ([], DefaultSettings) else (tasks, settings)
  }

  /** Clearing twice is clearing once. */
  lemma ClearIdempotent(tasks: seq<Task>, settings: AppSettings, confirmed: bool, again: bool)
    requires confirmed
    ensures var r := ClearAll(tasks, settings, confirmed);
      ClearAll(r.0, r.1, again) == r
  {
  }

  // ---------------------------------------------------------------------------
  // the page

  class SettingsPage {
    var tasks: seq<Task>
    var settings: AppSettings

    /** The slots as read from storage; an empty slot takes its initial value. */
    constructor (storedTasks: Option<seq<Task>>, storedSettings: Option<AppSettings>)
      ensures tasks == (if storedTasks.Some? then storedTasks.value else [])
      ensures settings == (if storedSettings.Some? then storedSettings.value else DefaultSettings)
    {
      tasks := if storedTasks.Some? then storedTasks.value else [];
      settings := if storedSettings.Some? then storedSettings.value else DefaultSettings;
    }

    /** `updateSetting`. */
    method Update(u: SettingUpdate)
      modifies this
      ensures settings == UpdateSetting(old(settings), u)
      ensures tasks == old(tasks)
    {
      settings := UpdateSetting(settings, u);
    }

    /** `exportData`: the bundle and the name of the file it is saved under. */
    method ExportData(iso: string) returns (bundle: ExportBundle, fileName: string)
      ensures bundle == Export(tasks, settings, iso)
      ensures fileName == BackupFileName(iso)
    {
      bundle := ExportBundle(tasks, settings, iso, "1.0");
      fileName := BackupPrefix + Split(iso, 'T')[0] + BackupSuffix;
    }

    /** `importData`: no file, nothing happens; otherwise the parsed content is applied. */
    method ImportData(fileChosen: bool, parsed: Option<ImportedData>) returns (outcome: ImportOutcome)
      modifies this
      ensures !fileChosen ==> outcome == NoFile && tasks == old(tasks) && settings == old(settings)
      ensures fileChosen ==> (tasks, settings) == ApplyImport(old(tasks), old(settings), parsed)
      ensures fileChosen ==> outcome == if parsed == None then InvalidFile else Imported
    {
      if !fileChosen {
        return NoFile;
      }
      if parsed == None {
        return InvalidFile;
      }
      if parsed.value.tasks.Some? {
        tasks := parsed.value.tasks.value;
      }
      if parsed.value.settings.Some? {
        settings := parsed.value.settings.value;
      }
      outcome := Imported;
    }

    /** `clearAllData`, with the answer to the confirmation dialog as `confirmed`. */
    method ClearAllData(confirmed: bool)
      modifies this
      ensures (tasks, settings) == ClearAll(old(tasks), old(settings), confirmed)
    {
      if confirmed {
        tasks := [];
        settings := DefaultSettings;
      }
    }
  }
}
