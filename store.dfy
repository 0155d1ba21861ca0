/** The application store: the task list, the append-only session ledger, the
    completion flags keyed by task and day, and the settings. The queries are
    pure functions of the store's state; the mutators are methods of `Store`
    that replace one part of the state and leave the rest alone. */
module AppStore {
  import opened Types
  import opened Text
  import opened Lists

  // ------------------------------------------------------------ records without ids

  /** A task as the caller describes it, before the store gives it an id. */
  datatype TaskDraft = TaskDraft(
    name: string,
    category: Option<string>,
    plannedDuration: Option<int>,
    dates: seq<string>,
    startHour: Option<int>)

  function TaskWithId(d: TaskDraft, id: string): (t: Task)
    ensures t.id == id && t.name == d.name && t.category == d.category
    ensures t.plannedDuration == d.plannedDuration && t.dates == d.dates && t.startHour == d.startHour
  {
    Task(id, d.name, d.category, d.plannedDuration, d.dates, d.startHour)
  }

  /** A session as the caller records it, before the store gives it an id. */
  datatype SessionDraft = SessionDraft(
    taskId: string,
    taskName: string,
    date: string,
    duration: int,
    kind: SessionKind,
    timestamp: int)

  function SessionWithId(d: SessionDraft, id: string): (s: Session)
    ensures s.id == id && s.taskId == d.taskId && s.taskName == d.taskName && s.date == d.date
    ensures s.duration == d.duration && s.kind == d.kind && s.timestamp == d.timestamp
  {
    Session(id, d.taskId, d.taskName, d.date, d.duration, d.kind, d.timestamp)
  }

  // ------------------------------------------------------------ partial updates

  /** `Partial<Task>`: each field is either absent (`None`) or the new value.
      For the optional fields `Some(None)` is a field explicitly set to `undefined`. */
  datatype TaskPatch = TaskPatch(
    id: Option<string>,
    name: Option<string>,
    category: Option<Option<string>>,
    plannedDuration: Option<Option<int>>,
    dates: Option<seq<string>>,
    startHour: Option<Option<int>>)

  const NoTaskChanges := TaskPatch(None, None, None, None, None, None)

  function Pick<T>(o: Option<T>, otherwise: T): (r: T)
    ensures o.Some? ==> r == o.value
    ensures o.None? ==> r == otherwise
  {
    if o.Some? then o.value else otherwise
  }

  /** The task with every field the patch carries replaced. */
  function PatchTask(t: Task, p: TaskPatch): Task {
    Task(
      Pick(p.id, t.id),
      Pick(p.name, t.name),
      Pick(p.category, t.category),
      Pick(p.plannedDuration, t.plannedDuration),
      Pick(p.dates, t.dates),
      Pick(p.startHour, t.startHour))
  }

  /** A field the patch names takes the patch's value; every other field keeps
      the task's value. */
  lemma PatchTaskFields(t: Task, p: TaskPatch)
    ensures PatchTask(t, p).id == (if p.id.Some? then p.id.value else t.id)
    ensures PatchTask(t, p).name == (if p.name.Some? then p.name.value else t.name)
    ensures PatchTask(t, p).category == (if p.category.Some? then p.category.value else t.category)
    ensures PatchTask(t, p).plannedDuration ==
      (if p.plannedDuration.Some? then p.plannedDuration.value else t.plannedDuration)
    ensures PatchTask(t, p).dates == (if p.dates.Some? then p.dates.value else t.dates)
    ensures PatchTask(t, p).startHour == (if p.startHour.Some? then p.startHour.value else t.startHour)
  {
  }

  lemma PatchNothing(t: Task)
    ensures PatchTask(t, NoTaskChanges) == t
  {
  }

  lemma PatchTwice(t: Task, p: TaskPatch)
    ensures PatchTask(PatchTask(t, p), p) == PatchTask(t, p)
  {
  }

  /** `Partial<AppSettings>`. */
  datatype SettingsPatch = SettingsPatch(
    themeMode: Option<ThemeMode>,
    colorPalette: Option<ColorPalette>,
    notifications: Option<bool>,
    askBreakTimer: Option<bool>,
    defaultBreakDuration: Option<int>,
    planningHourStart: Option<int>,
    planningHourEnd: Option<int>,
    onboardingDone: Option<bool>,
    useCase: Option<Option<string>>)

  /** The settings with every field the patch carries replaced. */
  function PatchSettings(s: AppSettings, p: SettingsPatch): AppSettings {
    AppSettings(
      Pick(p.themeMode, s.themeMode),
      Pick(p.colorPalette, s.colorPalette),
      Pick(p.notifications, s.notifications),
      Pick(p.askBreakTimer, s.askBreakTimer),
      Pick(p.defaultBreakDuration, s.defaultBreakDuration),
      Pick(p.planningHourStart, s.planningHourStart),
      Pick(p.planningHourEnd, s.planningHourEnd),
      Pick(p.onboardingDone, s.onboardingDone),
      Pick(p.useCase, s.useCase))
  }

  /** Changing only the theme or the palette, as the settings screen does,
      keeps a well-formed settings record well formed and every other field. */
  lemma AppearancePatchKeepsRest(s: AppSettings, p: SettingsPatch)
    requires p.notifications == None && p.askBreakTimer == None && p.defaultBreakDuration == None
    requires p.planningHourStart == None && p.planningHourEnd == None
    requires p.onboardingDone == None && p.useCase == None
    ensures var r := PatchSettings(s, p);
      && r.themeMode == Pick(p.themeMode, s.themeMode)
      && r.colorPalette == Pick(p.colorPalette, s.colorPalette)
      && r.(themeMode := s.themeMode, colorPalette := s.colorPalette) == s
      && (WellFormedSettings(s) ==> WellFormedSettings(r))
  {
  }

  // ------------------------------------------------------------ task list operations

  /** Every task with the id patched, every other task as it was. */
  function UpdateTasks(tasks: seq<Task>, id: string, p: TaskPatch): (r: seq<Task>)
    ensures |r| == |tasks|
  {
    seq(|tasks|, k requires 0 <= k < |tasks| => if tasks[k].id == id then PatchTask(tasks[k], p) else tasks[k])
  }

  /** Only the tasks with that id change, each by the patch; a missing id
      changes nothing. */
  lemma UpdateTasksOnlyMatching(tasks: seq<Task>, id: string, p: TaskPatch)
    ensures forall k :: 0 <= k < |tasks| && tasks[k].id != id ==> UpdateTasks(tasks, id, p)[k] == tasks[k]
    ensures forall k :: 0 <= k < |tasks| && tasks[k].id == id ==> UpdateTasks(tasks, id, p)[k] == PatchTask(tasks[k], p)
    ensures (forall k :: 0 <= k < |tasks| ==> tasks[k].id != id) ==> UpdateTasks(tasks, id, p) == tasks
  {
  }

  function NotId(id: string): Task -> bool {
    (t: Task) => t.id != id
  }

  /** The tasks whose id differs from `id`, in their order. */
  function WithoutTask(tasks: seq<Task>, id: string): (r: seq<Task>)
    ensures |r| <= |tasks|
  {
    Filter(tasks, NotId(id))
  }

  /** Deleting removes exactly the tasks with that id: no task with the id is
      left, every other task is kept as often as it occurred. */
  lemma WithoutTaskExactly(tasks: seq<Task>, id: string, t: Task)
    ensures t in WithoutTask(tasks, id) <==> t in tasks && t.id != id
    ensures multiset(WithoutTask(tasks, id))[t] == if t.id == id then 0 else multiset(tasks)[t]
  {
    FilterMembership(tasks, NotId(id), t);
    FilterCount(tasks, NotId(id), t);
  }

  /** Deleting keeps the order: deleting from a concatenation deletes from each
      part, and deleting an absent id changes nothing. */
  lemma WithoutTaskKeepsOrder(a: seq<Task>, b: seq<Task>, id: string)
    ensures WithoutTask(a + b, id) == WithoutTask(a, id) + WithoutTask(b, id)
    ensures (forall k :: 0 <= k < |a| ==> a[k].id != id) ==> WithoutTask(a, id) == a
  {
    FilterConcat(a, b, NotId(id));
    if forall k :: 0 <= k < |a| ==> a[k].id != id {
      FilterKeepsAll(a, NotId(id));
    }
  }

  /** Every task with the id gets the date appended to its dates unless it
      already has it; the other tasks are kept as they were. */
  function WithDate(tasks: seq<Task>, taskId: string, date: string): (r: seq<Task>)
    ensures |r| == |tasks|
  {
    seq(|tasks|, k requires 0 <= k < |tasks| =>
      if tasks[k].id == taskId && date !in tasks[k].dates then tasks[k].(dates := tasks[k].dates + [date])
      else tasks[k])
  }

  /** After adding a date, every task with that id is planned on it; the dates
      it already had stay in place and only the new one is appended; other
      tasks are untouched. */
  lemma WithDatePlans(tasks: seq<Task>, taskId: string, date: string)
    ensures forall k :: 0 <= k < |tasks| && tasks[k].id == taskId ==> date in WithDate(tasks, taskId, date)[k].dates
    ensures forall k :: 0 <= k < |tasks| ==>
      var t, u := tasks[k], WithDate(tasks, taskId, date)[k];
      && u.(dates := t.dates) == t
      && t.dates <= u.dates
      && |u.dates| <= |t.dates| + 1
    ensures forall k :: 0 <= k < |tasks| && tasks[k].id != taskId ==> WithDate(tasks, taskId, date)[k] == tasks[k]
    ensures forall k :: 0 <= k < |tasks| && date in tasks[k].dates ==> WithDate(tasks, taskId, date)[k] == tasks[k]
    ensures forall k :: 0 <= k < |tasks| && tasks[k].id == taskId && date !in tasks[k].dates ==>
      WithDate(tasks, taskId, date)[k].dates == tasks[k].dates + [date]
  {
  }

  /** Adding the same date twice is adding it once. */
  lemma WithDateIdempotent(tasks: seq<Task>, taskId: string, date: string)
    ensures WithDate(WithDate(tasks, taskId, date), taskId, date) == WithDate(tasks, taskId, date)
  {
    var once := WithDate(tasks, taskId, date);
    assert forall k :: 0 <= k < |once| && once[k].id == taskId ==> date in once[k].dates;
  }

  // ------------------------------------------------------------ queries

  function OnDate(date: string): Task -> bool {
    (t: Task) => date in t.dates
  }

  /** `getTasksForDate`: the tasks planned on the date, in list order. */
  function TasksForDate(tasks: seq<Task>, date: string): (r: seq<Task>)
    ensures |r| <= |tasks|
  {
    Filter(tasks, OnDate(date))
  }

  lemma TasksForDateExactly(tasks: seq<Task>, date: string, t: Task)
    ensures t in TasksForDate(tasks, date) <==> t in tasks && date in t.dates
    ensures multiset(TasksForDate(tasks, date))[t] == if date in t.dates then multiset(tasks)[t] else 0
  {
    FilterMembership(tasks, OnDate(date), t);
    FilterCount(tasks, OnDate(date), t);
  }

  lemma TasksForDateKeepsOrder(a: seq<Task>, b: seq<Task>, date: string)
    ensures TasksForDate(a + b, date) == TasksForDate(a, date) + TasksForDate(b, date)
  {
    FilterConcat(a, b, OnDate(date));
  }

  /** A task given a date is in that day's list. */
  lemma WithDateShowsOnDay(tasks: seq<Task>, k: nat, date: string)
    requires k < |tasks|
    ensures WithDate(tasks, tasks[k].id, date)[k] in TasksForDate(WithDate(tasks, tasks[k].id, date), date)
  {
    var r := WithDate(tasks, tasks[k].id, date);
    assert date in r[k].dates;
    TasksForDateExactly(r, date, r[k]);
  }

  function SessionOn(date: string): Session -> bool {
    (s: Session) => s.date == date
  }

  /** `getSessionsForDate`: the sessions recorded on the date, in ledger order. */
  function SessionsForDate(sessions: seq<Session>, date: string): (r: seq<Session>)
    ensures |r| <= |sessions|
  {
    Filter(sessions, SessionOn(date))
  }

  lemma SessionsForDateExactly(sessions: seq<Session>, date: string, s: Session)
    ensures s in SessionsForDate(sessions, date) <==> s in sessions && s.date == date
    ensures multiset(SessionsForDate(sessions, date))[s] == if s.date == date then multiset(sessions)[s] else 0
  {
    FilterMembership(sessions, SessionOn(date), s);
    FilterCount(sessions, SessionOn(date), s);
  }

  /** Appending a session extends the day's list by it when it is on that day
      and leaves the list alone otherwise. */
  lemma SessionsForDateAppend(sessions: seq<Session>, s: Session, date: string)
    ensures SessionsForDate(sessions + [s], date) ==
      SessionsForDate(sessions, date) + (if s.date == date then [s] else [])
  {
    FilterConcat(sessions, [s], SessionOn(date));
    FilterSingleton(s, SessionOn(date));
  }

  function HasId(id: string): Task -> bool {
    (t: Task) => t.id == id
  }

  function OfKind(k: SessionKind): Session -> bool {
    (s: Session) => s.kind == k
  }

  function OfKindOn(k: SessionKind, date: string): Session -> bool {
    (s: Session) => s.date == date && s.kind == k
  }

  function DurationOf(s: Session): int {
    s.duration
  }

  /** `taskExists`: some task has the name, ignoring the case of ASCII letters. */
  predicate TaskExists(tasks: seq<Task>, name: string) {
    exists k :: 0 <= k < |tasks| && AsciiLower(tasks[k].name) == AsciiLower(name)
  }

  /** The lookup ignores case, and a task is found by its own name. */
  lemma TaskExistsIgnoresCase(tasks: seq<Task>, name: string)
    ensures TaskExists(tasks, AsciiLower(name)) == TaskExists(tasks, name)
    ensures forall k :: 0 <= k < |tasks| ==> TaskExists(tasks, tasks[k].name)
  {
    AsciiLowerIdempotent(name);
  }

  // ------------------------------------------------------------ completion flags

  /** `${taskId}_${date}`. */
  function CompletionKey(taskId: string, date: string): (key: string)
    ensures |key| == |taskId| + 1 + |date|
    ensures key[|taskId|] == '_' && key[..|taskId|] == taskId && key[|taskId| + 1..] == date
  {
    taskId + "_" + date
  }

  /** Keys of different (task, day) pairs differ as long as the days hold no
      underscore, which holds of the YYYY-MM-DD days the application uses. */
  lemma CompletionKeyInjective(t1: string, d1: string, t2: string, d2: string)
    requires '_' !in d1 && '_' !in d2
    requires CompletionKey(t1, d1) == CompletionKey(t2, d2)
    ensures t1 == t2 && d1 == d2
  {
    var x := CompletionKey(t1, d1);
    if |d1| == |d2| {
      assert t1 == x[..|t1|] && t2 == x[..|t2|];
    }
  }

  /** On the same day the key tells tasks apart, whatever the day looks like. */
  lemma CompletionKeySameDay(t1: string, t2: string, date: string)
    ensures CompletionKey(t1, date) == CompletionKey(t2, date) <==> t1 == t2
  {
    var x := CompletionKey(t1, date);
    if x == CompletionKey(t2, date) {
      assert t1 == x[..|t1|] && t2 == x[..|t2|];
    }
  }

  /** `isTaskCompleted`: `!!completions[key]`, so a key never written reads as
      not completed. */
  predicate IsTaskCompleted(completions: map<string, bool>, taskId: string, date: string) {
    var key := CompletionKey(taskId, date);
    key in completions && completions[key]
  }

  /** The flags with the key of (task, date) set to `completed`. */
  function SetCompleted(completions: map<string, bool>, taskId: string, date: string, completed: bool): (r: map<string, bool>)
    ensures r.Keys == completions.Keys + {CompletionKey(taskId, date)}
  {
    completions[CompletionKey(taskId, date) := completed]
  }

  /** The flags with the key of (task, date) set to the negation of its
      current reading (a missing key reads as not done). */
  function Toggled(completions: map<string, bool>, taskId: string, date: string): (r: map<string, bool>)
    ensures r.Keys == completions.Keys + {CompletionKey(taskId, date)}
  {
    SetCompleted(completions, taskId, date, !IsTaskCompleted(completions, taskId, date))
  }

  lemma NeverWrittenNotCompleted(completions: map<string, bool>, taskId: string, date: string)
    requires CompletionKey(taskId, date) !in completions
    ensures !IsTaskCompleted(completions, taskId, date)
  {
  }

  /** Setting a flag reads back as set, and every other key keeps its entry. */
  lemma SetThenQuery(completions: map<string, bool>, taskId: string, date: string, completed: bool)
    ensures IsTaskCompleted(SetCompleted(completions, taskId, date, completed), taskId, date) == completed
    ensures forall key :: key in completions && key != CompletionKey(taskId, date) ==>
      key in SetCompleted(completions, taskId, date, completed) &&
      SetCompleted(completions, taskId, date, completed)[key] == completions[key]
  {
  }

  /** The flag of another (task, day) pair is unaffected by setting this one. */
  lemma SetLeavesOthers(completions: map<string, bool>, taskId: string, date: string, completed: bool,
                        otherId: string, otherDate: string)
    requires '_' !in date && '_' !in otherDate
    requires otherId != taskId || otherDate != date
    ensures IsTaskCompleted(SetCompleted(completions, taskId, date, completed), otherId, otherDate)
       == IsTaskCompleted(completions, otherId, otherDate)
  {
    if CompletionKey(otherId, otherDate) == CompletionKey(taskId, date) {
      CompletionKeyInjective(otherId, otherDate, taskId, date);
    }
  }

  /** Toggling flips the flag; toggling twice restores it. */
  lemma ToggleFlips(completions: map<string, bool>, taskId: string, date: string)
    ensures IsTaskCompleted(Toggled(completions, taskId, date), taskId, date) == !IsTaskCompleted(completions, taskId, date)
    ensures IsTaskCompleted(Toggled(Toggled(completions, taskId, date), taskId, date), taskId, date)
         == IsTaskCompleted(completions, taskId, date)
  {
    SetThenQuery(completions, taskId, date, !IsTaskCompleted(completions, taskId, date));
    var once := Toggled(completions, taskId, date);
    SetThenQuery(once, taskId, date, !IsTaskCompleted(once, taskId, date));
  }

  // ------------------------------------------------------------ the store

  class Store {
    var tasks: seq<Task>
    var sessions: seq<Session>
    var completions: map<string, bool>
    var settings: AppSettings

    /** A store with nothing saved yet. */
    constructor()
      ensures tasks == [] && sessions == [] && completions == map[] && settings == DefaultSettings()
    {
      tasks, sessions, completions, settings := [], [], map[], DefaultSettings();
    }

    /** `addTask`: the draft with a fresh id, appended to the list and returned. */
    method AddTask(draft: TaskDraft, freshId: string) returns (t: Task)
      modifies this
      ensures t == TaskWithId(draft, freshId)
      ensures tasks == old(tasks) + [t]
      ensures sessions == old(sessions) && completions == old(completions) && settings == old(settings)
    {
      t := TaskWithId(draft, freshId);
      tasks := tasks + [t];
    }

    method UpdateTask(id: string, patch: TaskPatch)
      modifies this
      ensures tasks == UpdateTasks(old(tasks), id, patch)
      ensures sessions == old(sessions) && completions == old(completions) && settings == old(settings)
    {
      tasks := UpdateTasks(tasks, id, patch);
    }

    method DeleteTask(id: string)
      modifies this
      ensures tasks == WithoutTask(old(tasks), id)
      ensures sessions == old(sessions) && completions == old(completions) && settings == old(settings)
    {
      tasks := WithoutTask(tasks, id);
    }

    method AddTaskToDate(taskId: string, date: string)
      modifies this
      ensures tasks == WithDate(old(tasks), taskId, date)
      ensures sessions == old(sessions) && completions == old(completions) && settings == old(settings)
    {
      tasks := WithDate(tasks, taskId, date);
    }

    /** `addSession`: the ledger grows by exactly this session, at the end. */
    method AddSession(draft: SessionDraft, freshId: string)
      modifies this
      ensures sessions == old(sessions) + [SessionWithId(draft, freshId)]
      ensures tasks == old(tasks) && completions == old(completions) && settings == old(settings)
    {
      sessions := sessions + [SessionWithId(draft, freshId)];
    }

    method ToggleTaskCompletion(taskId: string, date: string)
      modifies this
      ensures completions == Toggled(old(completions), taskId, date)
      ensures tasks == old(tasks) && sessions == old(sessions) && settings == old(settings)
    {
      completions := Toggled(completions, taskId, date);
    }

    method SetTaskCompleted(taskId: string, date: string, completed: bool)
      modifies this
      ensures completions == SetCompleted(old(completions), taskId, date, completed)
      ensures tasks == old(tasks) && sessions == old(sessions) && settings == old(settings)
    {
      completions := SetCompleted(completions, taskId, date, completed);
    }

    method UpdateSettings(patch: SettingsPatch)
      modifies this
      ensures settings == PatchSettings(old(settings), patch)
      ensures tasks == old(tasks) && sessions == old(sessions) && completions == old(completions)
    {
      settings := PatchSettings(settings, patch);
    }

    /** `clearAllData`: tasks, sessions and flags go; the settings stay. */
    method ClearAllData()
      modifies this
      ensures tasks == [] && sessions == [] && completions == map[]
      ensures settings == old(settings)
    {
      tasks, sessions, completions := [], [], map[];
    }
  }
}
