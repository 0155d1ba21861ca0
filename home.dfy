/** The home screen: selecting a task, driving the stopwatch, committing work
    and break time to the ledger as sessions, the break state machine with its
    optional time limit, and the totals the screen shows for today. */
module Home {
  import opened Types
  import opened Text
  import opened Lists
  import opened WorkTimer
  import opened AppStore

  // ------------------------------------------------------------ selection

  /** The first task with the selected id; nothing when no id is selected. */
  function SelectedIn(tasks: seq<Task>, selectedId: Option<string>): (r: Option<Task>)
    ensures r.Some? ==> selectedId.Some? && r.value in tasks && r.value.id == selectedId.value
    ensures r.None? && selectedId.Some? ==> forall k :: 0 <= k < |tasks| ==> tasks[k].id != selectedId.value
  {
    if selectedId.None? then None else Find(tasks, HasId(selectedId.value))
  }

  /** A JavaScript string that is set and non-empty, i.e. truthy. */
  predicate Truthy(o: Option<string>) {
    o.Some? && o.value != ""
  }

  // ------------------------------------------------------------ committed sessions

  /** The work session `completeTask` and `startBreak` record: one session for
      the selected task, today and the stopped duration, or none at all. */
  function WorkCommit(task: Option<Task>, duration: int, today: string, now: int, id: string): seq<Session> {
    if task.Some? && duration > 0
    then [SessionWithId(SessionDraft(task.value.id, task.value.name, today, duration, Work, now), id)]
    else []
  }

  lemma WorkCommitShape(task: Option<Task>, duration: int, today: string, now: int, id: string)
    ensures var r := WorkCommit(task, duration, today, now, id);
      && |r| <= 1
      && (r != [] <==> task.Some? && duration > 0)
      && (r != [] ==> r[0].kind == Work && r[0].taskId == task.value.id && r[0].taskName == task.value.name
                      && r[0].date == today && r[0].duration == duration && r[0].id == id)
  {
  }

  /** The task a break is filed under: the selected task's id, or the sentinel
      when no task is selected or its id is empty. */
  function BreakTaskId(task: Option<Task>): (id: string)
    ensures id == "break" <==> task.None? || task.value.id == "" || task.value.id == "break"
    ensures id != "break" ==> task.Some? && id == task.value.id
  {
    if task.Some? && task.value.id != "" then task.value.id else "break"
  }

  const BreakName := "Mola"

  // ------------------------------------------------------------ the break state machine

  datatype BreakState = BreakState(onBreak: bool, start: Option<int>, limit: Option<int>, elapsed: int)

  const NoBreak := BreakState(false, None, None, 0)

  /** The limit in seconds for a number of minutes; a missing or zero number means no limit. */
  function BreakLimitSeconds(minutes: Option<int>): (r: Option<int>)
    ensures r.Some? <==> minutes.Some? && minutes.value != 0
    ensures r.Some? ==> r.value == minutes.value * 60 && r.value != 0
  {
    if minutes.Some? && minutes.value != 0 then Some(minutes.value * 60) else None
  }

  /** The break `startBreak(minutes)` enters at time `now` (milliseconds). */
  function BreakBegun(minutes: Option<int>, now: int): BreakState {
    BreakState(true, Some(now), BreakLimitSeconds(minutes), 0)
  }

  /** One firing of the break interval, which exists only while on a break
      with a truthy start time: whole seconds since the start, rounded down. */
  function BreakTicked(b: BreakState, now: int): BreakState {
    if b.onBreak && b.start.Some? && b.start.value != 0 then b.(elapsed := (now - b.start.value) / 1000)
    else b
  }

  /** A break runs out when it has a non-zero limit and the elapsed seconds
      have reached it. */
  predicate DueToEnd(b: BreakState) {
    b.onBreak && b.limit.Some? && b.limit.value != 0 && b.elapsed >= b.limit.value
  }

  /** The break session `endBreak` records: only for a positive elapsed time,
      for the whole elapsed time, under the name 'Mola'. */
  function BreakCommit(b: BreakState, task: Option<Task>, today: string, now: int, id: string): seq<Session> {
    if b.elapsed > 0
    then [SessionWithId(SessionDraft(BreakTaskId(task), BreakName, today, b.elapsed, Break, now), id)]
    else []
  }

  /** The break fields agree: a break has a start; outside a break every
      field is cleared. */
  predicate BreakConsistent(b: BreakState) {
    (b.onBreak ==> b.start.Some?) && (!b.onBreak ==> b == NoBreak)
  }

  lemma BreakTransitionsConsistent(b: BreakState, minutes: Option<int>, now: int)
    requires BreakConsistent(b)
    ensures BreakConsistent(BreakBegun(minutes, now))
    ensures BreakConsistent(BreakTicked(b, now))
    ensures BreakConsistent(NoBreak)
  {
  }

  /** The tick measures whole seconds: the elapsed value is the floor of the
      milliseconds since the start divided by 1000, even for a clock that went back. */
  lemma BreakTickedIsFloor(b: BreakState, now: int)
    requires b.onBreak && b.start.Some? && b.start.value != 0
    ensures var e := BreakTicked(b, now).elapsed;
      1000 * e <= now - b.start.value < 1000 * (e + 1)
  {
  }

  /** A fresh break is over at once exactly when its limit is negative: a zero
      or missing limit means none, and a positive one is not yet reached. */
  lemma BegunDueIff(minutes: Option<int>, now: int)
    ensures DueToEnd(BreakBegun(minutes, now)) <==> minutes.Some? && minutes.value < 0
  {
  }

  /** The recorded break length is the elapsed time, which can exceed the
      limit when a tick overshoots it. */
  lemma ExpiryRecordsOvershoot()
    ensures var b := BreakTicked(BreakBegun(Some(5), 1000), 303500);
      && DueToEnd(b)
      && BreakCommit(b, None, "2024-01-01", 0, "s")[0].duration == 302
      && BreakCommit(b, None, "2024-01-01", 0, "s")[0].taskId == "break"
  {
    var b := BreakTicked(BreakBegun(Some(5), 1000), 303500);
    assert b.elapsed == 302;
  }

  lemma BreakCommitShape(b: BreakState, task: Option<Task>, today: string, now: int, id: string)
    ensures var r := BreakCommit(b, task, today, now, id);
      && |r| <= 1
      && (r != [] <==> b.elapsed > 0)
      && (r != [] ==> r[0].kind == Break && r[0].taskName == "Mola" && r[0].taskId == BreakTaskId(task)
                      && r[0].date == today && r[0].duration == b.elapsed && r[0].id == id)
  {
  }

  /** The custom break length: the typed number of minutes, where an unreadable or zero
      entry falls back to five minutes, so a custom break always has a limit. */
  function CustomBreakMinutes(custom: string): (m: int)
    ensures m != 0
    ensures JsParseInt(custom).Some? && JsParseInt(custom).value != 0 ==> m == JsParseInt(custom).value
    ensures JsParseInt(custom).None? || JsParseInt(custom).value == 0 ==> m == 5
  {
    var v := JsParseInt(custom);
    if v.Some? && v.value != 0 then v.value else 5
  }

  /** A typed positive number of minutes is taken as it is. */
  lemma CustomBreakReadsNumber(n: nat)
    requires n > 0
    ensures CustomBreakMinutes(NatToString(n)) == n
    ensures BreakLimitSeconds(Some(CustomBreakMinutes(NatToString(n)))) == Some(n * 60)
  {
    ParseIntOfIntToString(n, "");
    assert IntToString(n) + "" == NatToString(n);
  }

  const BreakPresets: seq<int> := [5, 10, 30]

  // ------------------------------------------------------------ today's totals

  /** Seconds of today's sessions of one kind. */
  function KindTotal(sessions: seq<Session>, today: string, k: SessionKind): int {
    SumOf(Filter(SessionsForDate(sessions, today), OfKind(k)), DurationOf)
  }

  function TotalWork(sessions: seq<Session>, today: string): int {
    KindTotal(sessions, today, Work)
  }

  /** Today's break sessions plus the running break, if any. */
  function TotalBreak(sessions: seq<Session>, today: string, onBreak: bool, breakElapsed: int): int {
    KindTotal(sessions, today, Break) + (if onBreak then breakElapsed else 0)
  }

  /** The total is the sum over exactly the sessions of that day and kind. */
  lemma KindTotalIsSumOfMatching(sessions: seq<Session>, today: string, k: SessionKind)
    ensures KindTotal(sessions, today, k) == SumOf(Filter(sessions, OfKindOn(k, today)), DurationOf)
  {
    FilterFilter(sessions, SessionOn(today), OfKind(k), OfKindOn(k, today));
  }

  /** The break total shown on the home screen: the day's recorded break
      sessions, plus the running break's seconds while a break is on. */
  lemma TotalBreakIsSumOfMatching(sessions: seq<Session>, today: string, onBreak: bool, breakElapsed: int)
    ensures TotalBreak(sessions, today, onBreak, breakElapsed) ==
      SumOf(Filter(sessions, OfKindOn(Break, today)), DurationOf) + (if onBreak then breakElapsed else 0)
  {
    KindTotalIsSumOfMatching(sessions, today, Break);
  }

  /** Recording a session adds its duration to the total of its own day and
      kind, and to no other total. */
  lemma KindTotalAppend(sessions: seq<Session>, s: Session, today: string, k: SessionKind)
    ensures KindTotal(sessions + [s], today, k) ==
      KindTotal(sessions, today, k) + (if s.date == today && s.kind == k then s.duration else 0)
  {
    SessionsForDateAppend(sessions, s, today);
    var day := SessionsForDate(sessions, today);
    var extra := if s.date == today then [s] else [];
    FilterConcat(day, extra, OfKind(k));
    if s.date == today {
      FilterSingleton(s, OfKind(k));
    }
    var f := Filter(day, OfKind(k));
    var g := Filter(extra, OfKind(k));
    SumOfConcat(f, g, DurationOf);
    if s.date == today && s.kind == k {
      SumOfSingleton(s, DurationOf);
    }
  }

  function DoneOn(completions: map<string, bool>, today: string): Task -> bool {
    (t: Task) => IsTaskCompleted(completions, t.id, today)
  }

  /** How many of the day's tasks are marked done for that day. */
  function CompletedCount(tasks: seq<Task>, completions: map<string, bool>, today: string): (n: nat)
    ensures n <= |TasksForDate(tasks, today)|
  {
    |Filter(TasksForDate(tasks, today), DoneOn(completions, today))|
  }

  /** Marking a task done for the day raises the count by the number of times
      it appears in the day's list, when it was not done before. */
  lemma CompletedCountAfterMark(tasks: seq<Task>, completions: map<string, bool>, today: string, id: string)
    requires !IsTaskCompleted(completions, id, today)
    ensures CompletedCount(tasks, SetCompleted(completions, id, today, true), today)
         == CompletedCount(tasks, completions, today) + |Filter(TasksForDate(tasks, today), HasId(id))|
  {
    var marked := SetCompleted(completions, id, today, true);
    var before, after, same := DoneOn(completions, today), DoneOn(marked, today), HasId(id);
    forall t: Task
      ensures after(t) == (before(t) || same(t))
      ensures !(before(t) && same(t))
    {
      CompletionKeySameDay(t.id, id, today);
    }
    FilterDisjointUnion(TasksForDate(tasks, today), before, same, after);
  }

  function NotOnDate(date: string): Task -> bool {
    (t: Task) => date !in t.dates
  }

  /** The tasks not planned for the day, in list order. */
  function UnplannedTasks(tasks: seq<Task>, today: string): seq<Task> {
    Filter(tasks, NotOnDate(today))
  }

  /** Every task is either planned for today or offered as unplanned, never both. */
  lemma UnplannedComplementsToday(tasks: seq<Task>, today: string, t: Task)
    ensures t in UnplannedTasks(tasks, today) <==> t in tasks && t !in TasksForDate(tasks, today)
    ensures |UnplannedTasks(tasks, today)| + |TasksForDate(tasks, today)| == |tasks|
  {
    FilterMembership(tasks, NotOnDate(today), t);
    TasksForDateExactly(tasks, today, t);
    FilterComplement(tasks, OnDate(today), NotOnDate(today));
  }

  function NameMatches(query: string): Task -> bool {
    (t: Task) => Includes(AsciiLower(t.name), AsciiLower(query))
  }

  /** The unplanned tasks narrowed by the search box, ignoring case; an empty
      box narrows nothing. */
  function FilteredUnplanned(tasks: seq<Task>, today: string, query: string): seq<Task> {
    if query == "" then UnplannedTasks(tasks, today)
    else Filter(UnplannedTasks(tasks, today), NameMatches(query))
  }

  lemma FilteredUnplannedExactly(tasks: seq<Task>, today: string, query: string, t: Task)
    ensures t in FilteredUnplanned(tasks, today, query) <==>
      t in tasks && today !in t.dates && (query == "" || Includes(AsciiLower(t.name), AsciiLower(query)))
  {
    var u := UnplannedTasks(tasks, today);
    FilterMembership(tasks, NotOnDate(today), t);
    FilterMembership(u, NameMatches(query), t);
  }

  /** The empty-box test is only a shortcut: every name contains the empty string. */
  lemma EmptyQueryMatchesAll(tasks: seq<Task>, today: string)
    ensures Filter(UnplannedTasks(tasks, today), NameMatches("")) == FilteredUnplanned(tasks, today, "")
  {
    var u := UnplannedTasks(tasks, today);
    forall k | 0 <= k < |u|
      ensures NameMatches("")(u[k])
    {
      assert AsciiLower("") == "";
      assert "" <= AsciiLower(u[k].name)[0..];
    }
    FilterKeepsAll(u, NameMatches(""));
  }

  // ------------------------------------------------------------ free work

  const FreeWorkName := "Serbest Çalışma"

  function Named(name: string): Task -> bool {
    (t: Task) => t.name == name
  }

  /** What `handleFreeWork` does to the task list: create the free-work task
      planned for today, or add today to the first task of that name. */
  function FreeWorkTasks(tasks: seq<Task>, today: string, freshId: string): seq<Task> {
    match Find(tasks, Named(FreeWorkName))
    case None => tasks + [TaskWithId(TaskDraft(FreeWorkName, None, None, [today], None), freshId)]
    case Some(t) => if today in t.dates then tasks else WithDate(tasks, t.id, today)
  }

  /** The id `handleFreeWork` selects. */
  function FreeWorkId(tasks: seq<Task>, freshId: string): string {
    match Find(tasks, Named(FreeWorkName))
    case None => freshId
    case Some(t) => t.id
  }

  /** Afterwards the selected free-work task is the first of that name and is
      planned for today. */
  lemma FreeWorkPlansToday(tasks: seq<Task>, today: string, freshId: string)
    ensures var r := FreeWorkTasks(tasks, today, freshId);
      && Find(r, Named(FreeWorkName)).Some?
      && Find(r, Named(FreeWorkName)).value.id == FreeWorkId(tasks, freshId)
      && today in Find(r, Named(FreeWorkName)).value.dates
  {
    var p := Named(FreeWorkName);
    match FirstIndex(tasks, p)
    case None =>
      var t := TaskWithId(TaskDraft(FreeWorkName, None, None, [today], None), freshId);
      FirstIndexAppend(tasks, [t], p);
      assert FirstIndex([t], p) == Some(0);
    case Some(k) =>
      var t := tasks[k];
      if today !in t.dates {
        var r := WithDate(tasks, t.id, today);
        WithDatePlans(tasks, t.id, today);
        assert forall j :: 0 <= j < |tasks| ==> r[j].name == tasks[j].name;
        FirstIndexSameNames(tasks, r, p, k);
      }
  }

  /** Lists with equal names at every position have the same first task of a given name. */
  lemma FirstIndexSameNames(a: seq<Task>, b: seq<Task>, p: Task -> bool, k: nat)
    requires p == Named(FreeWorkName)
    requires |a| == |b| && forall j :: 0 <= j < |a| ==> a[j].name == b[j].name
    requires FirstIndex(a, p) == Some(k)
    ensures FirstIndex(b, p) == Some(k)
  {
  }

  /** Reaching for free work twice plans today once. */
  lemma FreeWorkIdempotent(tasks: seq<Task>, today: string, id1: string, id2: string)
    ensures FreeWorkTasks(FreeWorkTasks(tasks, today, id1), today, id2) == FreeWorkTasks(tasks, today, id1)
    ensures FreeWorkId(FreeWorkTasks(tasks, today, id1), id2) == FreeWorkId(tasks, id1)
  {
    FreeWorkPlansToday(tasks, today, id1);
  }

  // ------------------------------------------------------------ the screen

  class HomeScreen {
    const timer: Timer
    const store: Store

    var selectedTaskId: Option<string>
    var accordionOpen: bool
    var sheetOpen: bool
    var searchQuery: string
    var newTaskName: string
    var showNewTaskInput: bool
    var showBreakDialog1: bool
    var showBreakDialog2: bool
    var showFinishDialog: bool
    var customBreakMinutes: string
    var dontAskBreak: bool

    var isOnBreak: bool
    var breakStart: Option<int>
    var breakLimit: Option<int>
    var breakElapsed: int

    function CurrentBreak(): BreakState
      reads this
    {
      BreakState(isOnBreak, breakStart, breakLimit, breakElapsed)
    }

    function SelectedTask(): Option<Task>
      reads this, store
    {
      SelectedIn(store.tasks, selectedTaskId)
    }

    constructor (timer: Timer, store: Store)
      ensures this.timer == timer && this.store == store
      ensures selectedTaskId == None && CurrentBreak() == NoBreak
      ensures !showBreakDialog1 && !showBreakDialog2 && !showFinishDialog && !dontAskBreak
      ensures !accordionOpen && !sheetOpen && !showNewTaskInput
      ensures searchQuery == "" && newTaskName == "" && customBreakMinutes == ""
    {
      this.timer := timer;
      this.store := store;
      selectedTaskId := None;
      accordionOpen, sheetOpen, showNewTaskInput := false, false, false;
      searchQuery, newTaskName, customBreakMinutes := "", "", "";
      showBreakDialog1, showBreakDialog2, showFinishDialog, dontAskBreak := false, false, false, false;
      isOnBreak, breakStart, breakLimit, breakElapsed := false, None, None, 0;
    }

    /** The effect that adopts the stopwatch's task when nothing is selected. */
    method SyncSelection()
      modifies this
      ensures selectedTaskId ==
        if Truthy(timer.currentTaskId) && !Truthy(old(selectedTaskId)) then timer.currentTaskId else old(selectedTaskId)
      ensures CurrentBreak() == old(CurrentBreak())
    {
      if Truthy(timer.currentTaskId) && !Truthy(selectedTaskId) {
        selectedTaskId := timer.currentTaskId;
      }
    }

    method SelectTask(taskId: string)
      modifies this
      ensures selectedTaskId == Some(taskId) && !accordionOpen
      ensures CurrentBreak() == old(CurrentBreak())
    {
      selectedTaskId := Some(taskId);
      accordionOpen := false;
    }

    /** Starts the stopwatch on the selected task; without one, nothing happens. */
    method HandleStart()
      modifies timer
      ensures old(SelectedTask()).Some? ==>
        timer.State() == Step(old(timer.State()), TimerEvent.Start(old(SelectedTask()).value.id, old(SelectedTask()).value.name))
      ensures old(SelectedTask()).None? ==> timer.State() == old(timer.State())
    {
      var t := SelectedTask();
      if t.Some? {
        timer.Start(t.value.id, t.value.name);
      }
    }

    method HandlePause()
      modifies timer
      ensures timer.State() == Step(old(timer.State()), TimerEvent.Pause)
    {
      timer.Pause();
    }

    method HandleResume()
      modifies timer
      ensures timer.State() == Step(old(timer.State()), TimerEvent.Resume)
    {
      timer.Resume();
    }

    /** Pauses the clock and asks whether the task is done. */
    method HandleFinish()
      modifies this, timer
      ensures timer.State() == Step(old(timer.State()), TimerEvent.Pause)
      ensures showFinishDialog && showBreakDialog1 == old(showBreakDialog1)
      ensures selectedTaskId == old(selectedTaskId) && CurrentBreak() == old(CurrentBreak())
    {
      timer.Pause();
      showFinishDialog := true;
    }

    /** What finishing a task and starting a break share: stop the clock,
        record the selected task's work time when there is any, and clear the
        clock. Returns the task the time was recorded for. */
    method CommitWork(today: string, sessionId: string, now: int) returns (t: Option<Task>)
      modifies timer, store
      ensures t == old(SelectedTask())
      ensures store.sessions == old(store.sessions) + WorkCommit(t, old(timer.elapsed), today, now, sessionId)
      ensures store.tasks == old(store.tasks) && store.completions == old(store.completions)
      ensures store.settings == old(store.settings)
      ensures timer.State() == Idle
    {
      t := SelectedTask();
      var duration := timer.Stop();
      if t.Some? && duration > 0 {
        store.AddSession(SessionDraft(t.value.id, t.value.name, today, duration, Work, now), sessionId);
      }
      timer.Reset();
    }

    /** The answer to the finish dialog: commit the work time, mark the task
        done for today if the answer was yes, then clear the clock and the selection. */
    method CompleteTask(completed: bool, today: string, sessionId: string, now: int)
      modifies this, timer, store
      ensures store.sessions == old(store.sessions) + WorkCommit(old(SelectedTask()), old(timer.elapsed), today, now, sessionId)
      ensures store.completions ==
        if completed && old(SelectedTask()).Some?
        then SetCompleted(old(store.completions), old(SelectedTask()).value.id, today, true)
        else old(store.completions)
      ensures store.tasks == old(store.tasks) && store.settings == old(store.settings)
      ensures timer.State() == Idle
      ensures selectedTaskId == None && !showFinishDialog
      ensures CurrentBreak() == old(CurrentBreak())
    {
      var t := CommitWork(today, sessionId, now);
      if completed && t.Some? {
        store.SetTaskCompleted(t.value.id, today, true);
      }
      selectedTaskId := None;
      showFinishDialog := false;
    }

    /** The break button opens the first break dialog only while the clock runs. */
    method HandleBreakClick()
      modifies this
      ensures showBreakDialog1 == (old(showBreakDialog1) || timer.isRunning)
      ensures selectedTaskId == old(selectedTaskId) && CurrentBreak() == old(CurrentBreak())
    {
      if timer.isRunning {
        showBreakDialog1 := true;
      }
    }

    /** Commits pending work time, clears the clock and enters a break with the
        given number of minutes as its limit. */
    method StartBreak(minutes: Option<int>, today: string, sessionId: string, now: int)
      modifies this, timer, store
      ensures store.sessions == old(store.sessions) + WorkCommit(old(SelectedTask()), old(timer.elapsed), today, now, sessionId)
      ensures store.settings == if dontAskBreak then old(store.settings).(askBreakTimer := false) else old(store.settings)
      ensures store.tasks == old(store.tasks) && store.completions == old(store.completions)
      ensures timer.State() == Idle
      ensures CurrentBreak() == BreakBegun(minutes, now)
      ensures selectedTaskId == old(selectedTaskId) && !showBreakDialog2 && dontAskBreak == old(dontAskBreak)
      ensures showBreakDialog1 == old(showBreakDialog1) && showFinishDialog == old(showFinishDialog)
    {
      var _ := CommitWork(today, sessionId, now);
      isOnBreak := true;
      breakStart := Some(now);
      breakLimit := BreakLimitSeconds(minutes);
      breakElapsed := 0;
      showBreakDialog2 := false;
      if dontAskBreak {
        store.UpdateSettings(SettingsPatch(None, None, None, Some(false), None, None, None, None, None));
      }
    }

    /** Ends the break, recording it as a session when any time passed. */
    method EndBreak(today: string, sessionId: string, now: int)
      modifies this, store
      ensures store.sessions == old(store.sessions) + BreakCommit(old(CurrentBreak()), old(SelectedTask()), today, now, sessionId)
      ensures store.tasks == old(store.tasks) && store.completions == old(store.completions)
      ensures store.settings == old(store.settings)
      ensures CurrentBreak() == NoBreak && selectedTaskId == old(selectedTaskId)
    {
      if breakElapsed > 0 {
        store.AddSession(SessionDraft(BreakTaskId(SelectedTask()), BreakName, today, breakElapsed, SessionKind.Break, now), sessionId);
      }
      isOnBreak, breakStart, breakLimit, breakElapsed := false, None, None, 0;
    }

    /** The effect that ends a break once its limit is reached. */
    method ExpireIfDue(today: string, sessionId: string, now: int)
      modifies this, store
      ensures DueToEnd(old(CurrentBreak())) ==>
        CurrentBreak() == NoBreak &&
        store.sessions == old(store.sessions) + BreakCommit(old(CurrentBreak()), old(SelectedTask()), today, now, sessionId)
      ensures !DueToEnd(old(CurrentBreak())) ==> CurrentBreak() == old(CurrentBreak()) && store.sessions == old(store.sessions)
      ensures store.tasks == old(store.tasks) && store.completions == old(store.completions)
      ensures store.settings == old(store.settings) && selectedTaskId == old(selectedTaskId)
    {
      if isOnBreak && breakLimit.Some? && breakLimit.value != 0 && breakElapsed >= breakLimit.value {
        EndBreak(today, sessionId, now);
      }
    }

    /** One firing of the break interval at time `now`, followed by the expiry
        effect it triggers. */
    method BreakTick(now: int, today: string, sessionId: string)
      modifies this, store
      ensures var b := BreakTicked(old(CurrentBreak()), now);
        && (DueToEnd(b) ==>
              CurrentBreak() == NoBreak &&
              store.sessions == old(store.sessions) + BreakCommit(b, old(SelectedTask()), today, now, sessionId))
        && (!DueToEnd(b) ==> CurrentBreak() == b && store.sessions == old(store.sessions))
      ensures store.tasks == old(store.tasks) && store.completions == old(store.completions)
      ensures store.settings == old(store.settings) && selectedTaskId == old(selectedTaskId)
    {
      if isOnBreak && breakStart.Some? && breakStart.value != 0 {
        breakElapsed := (now - breakStart.value) / 1000;
      }
      ExpireIfDue(today, sessionId, now);
    }

    /** "Stop and take a break" in the first dialog: ask for a limit, or take
        the default break length when the settings say not to ask. */
    method BreakDialogStop(today: string, sessionId: string, now: int)
      modifies this, timer, store
      ensures !showBreakDialog1
      ensures old(store.settings).askBreakTimer ==>
        showBreakDialog2 && CurrentBreak() == old(CurrentBreak()) && timer.State() == old(timer.State())
        && store.sessions == old(store.sessions)
      ensures old(store.settings).askBreakTimer ==> store.settings == old(store.settings)
      ensures !old(store.settings).askBreakTimer ==>
        CurrentBreak() == BreakBegun(Some(old(store.settings).defaultBreakDuration), now) && timer.State() == Idle
        && store.sessions == old(store.sessions) + WorkCommit(old(SelectedTask()), old(timer.elapsed), today, now, sessionId)
        && store.settings == (if old(dontAskBreak) then old(store.settings).(askBreakTimer := false) else old(store.settings))
        && !showBreakDialog2
      ensures store.tasks == old(store.tasks) && store.completions == old(store.completions)
      ensures selectedTaskId == old(selectedTaskId) && showFinishDialog == old(showFinishDialog)
    {
      showBreakDialog1 := false;
      if store.settings.askBreakTimer {
        showBreakDialog2 := true;
      } else {
        StartBreak(Some(store.settings.defaultBreakDuration), today, sessionId, now);
      }
    }

    /** "Finish the task" in the first dialog. */
    method BreakDialogFinish()
      modifies this, timer
      ensures !showBreakDialog1 && showFinishDialog
      ensures timer.State() == Step(old(timer.State()), TimerEvent.Pause)
      ensures selectedTaskId == old(selectedTaskId) && CurrentBreak() == old(CurrentBreak())
    {
      showBreakDialog1 := false;
      HandleFinish();
    }

    /** One of the preset buttons of the second dialog. */
    method ChoosePresetBreak(k: nat, today: string, sessionId: string, now: int)
      requires k < |BreakPresets|
      modifies this, timer, store
      ensures CurrentBreak() == BreakBegun(Some(BreakPresets[k]), now) && timer.State() == Idle
      ensures CurrentBreak().limit.Some? && CurrentBreak().limit.value == BreakPresets[k] * 60
      ensures store.sessions == old(store.sessions) + WorkCommit(old(SelectedTask()), old(timer.elapsed), today, now, sessionId)
      ensures store.settings == if old(dontAskBreak) then old(store.settings).(askBreakTimer := false) else old(store.settings)
      ensures store.tasks == old(store.tasks) && store.completions == old(store.completions)
      ensures selectedTaskId == old(selectedTaskId) && !showBreakDialog2
      ensures showBreakDialog1 == old(showBreakDialog1) && showFinishDialog == old(showFinishDialog)
    {
      StartBreak(Some(BreakPresets[k]), today, sessionId, now);
    }

    /** The custom-length button, which is disabled while its field is empty. */
    method ChooseCustomBreak(today: string, sessionId: string, now: int)
      modifies this, timer, store
      ensures old(customBreakMinutes) != "" ==>
        && CurrentBreak() == BreakBegun(Some(CustomBreakMinutes(old(customBreakMinutes))), now)
        && timer.State() == Idle && !showBreakDialog2
        && store.sessions == old(store.sessions) + WorkCommit(old(SelectedTask()), old(timer.elapsed), today, now, sessionId)
        && store.settings == (if old(dontAskBreak) then old(store.settings).(askBreakTimer := false) else old(store.settings))
      ensures old(customBreakMinutes) == "" ==>
        && CurrentBreak() == old(CurrentBreak()) && timer.State() == old(timer.State())
        && store.sessions == old(store.sessions) && store.settings == old(store.settings)
        && showBreakDialog2 == old(showBreakDialog2)
      ensures store.tasks == old(store.tasks) && store.completions == old(store.completions)
      ensures selectedTaskId == old(selectedTaskId)
      ensures showBreakDialog1 == old(showBreakDialog1) && showFinishDialog == old(showFinishDialog)
    {
      if customBreakMinutes != "" {
        StartBreak(Some(CustomBreakMinutes(customBreakMinutes)), today, sessionId, now);
      }
    }

    /** "Skip": a break without a limit. */
    method SkipBreakLimit(today: string, sessionId: string, now: int)
      modifies this, timer, store
      ensures CurrentBreak() == BreakBegun(None, now) && CurrentBreak().limit == None && timer.State() == Idle
      ensures store.sessions == old(store.sessions) + WorkCommit(old(SelectedTask()), old(timer.elapsed), today, now, sessionId)
      ensures store.settings == if old(dontAskBreak) then old(store.settings).(askBreakTimer := false) else old(store.settings)
      ensures store.tasks == old(store.tasks) && store.completions == old(store.completions)
      ensures selectedTaskId == old(selectedTaskId) && !showBreakDialog2
      ensures showBreakDialog1 == old(showBreakDialog1) && showFinishDialog == old(showFinishDialog)
    {
      StartBreak(None, today, sessionId, now);
    }

    /** Plans an unplanned task for today from the drawer. */
    method HandleAddUnplannedTask(taskId: string, today: string)
      modifies this, store
      ensures store.tasks == WithDate(old(store.tasks), taskId, today)
      ensures store.sessions == old(store.sessions) && store.completions == old(store.completions)
      ensures !sheetOpen && searchQuery == "" && selectedTaskId == old(selectedTaskId)
      ensures store.settings == old(store.settings) && CurrentBreak() == old(CurrentBreak())
    {
      store.AddTaskToDate(taskId, today);
      sheetOpen := false;
      searchQuery := "";
    }

    /** Creates a task planned for today from the trimmed name and selects it;
        a blank name does nothing. */
    method HandleCreateNewTask(today: string, freshId: string)
      modifies this, store
      ensures Trim(old(newTaskName)) == "" ==>
        store.tasks == old(store.tasks) && selectedTaskId == old(selectedTaskId) && newTaskName == old(newTaskName)
      ensures Trim(old(newTaskName)) != "" ==>
        && store.tasks == old(store.tasks) + [TaskWithId(TaskDraft(Trim(old(newTaskName)), None, None, [today], None), freshId)]
        && selectedTaskId == Some(freshId)
        && newTaskName == "" && !showNewTaskInput && !sheetOpen
      ensures store.sessions == old(store.sessions) && store.completions == old(store.completions)
      ensures store.settings == old(store.settings) && CurrentBreak() == old(CurrentBreak())
    {
      var name := Trim(newTaskName);
      if name == "" {
        return;
      }
      var t := store.AddTask(TaskDraft(name, None, None, [today], None), freshId);
      newTaskName := "";
      showNewTaskInput := false;
      sheetOpen := false;
      selectedTaskId := Some(t.id);
    }

    /** Selects the free-work task, creating it or planning it for today as needed. */
    method HandleFreeWork(today: string, freshId: string)
      modifies this, store
      ensures store.tasks == FreeWorkTasks(old(store.tasks), today, freshId)
      ensures selectedTaskId == Some(FreeWorkId(old(store.tasks), freshId)) && !sheetOpen
      ensures store.sessions == old(store.sessions) && store.completions == old(store.completions)
      ensures store.settings == old(store.settings) && CurrentBreak() == old(CurrentBreak())
    {
      var free := Find(store.tasks, Named(FreeWorkName));
      var id: string;
      if free.None? {
        var t := store.AddTask(TaskDraft(FreeWorkName, None, None, [today], None), freshId);
        id := t.id;
      } else {
        id := free.value.id;
        if today !in free.value.dates {
          store.AddTaskToDate(id, today);
        }
      }
      selectedTaskId := Some(id);
      sheetOpen := false;
    }
  }
}
