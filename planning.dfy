/** The planning screen: a form that turns typed text into a task planned for
    the selected day, and the per-day checkbox and delete button. The day is
    the already formatted `yyyy-MM-dd` string. */
module Planning {
  import opened Types
  import opened Text
  import opened Lists
  import opened AppStore

  /** What `handleCreate` hands to `addTask` for the typed name, category and
      duration on `date`, or `None` when it returns without creating. A
      duration that `parseInt` reads as `NaN` becomes an absent one. */
  function DraftFromForm(name: string, category: string, duration: string, date: string): Option<TaskDraft> {
    var n := Trim(name);
    var c := Trim(category);
    if n == "" then None
    else Some(TaskDraft(
      n,
      if c == "" then None else Some(c),
      if duration == "" then None else JsParseInt(duration),
      [date],
      None))
  }

  /** Nothing is created exactly when the typed name is all whitespace. */
  lemma BlankNameRejected(name: string, category: string, duration: string, date: string)
    ensures DraftFromForm(name, category, duration, date).None? <==>
      forall k :: 0 <= k < |name| ==> IsJsWhitespace(name[k])
  {
    TrimEmptyIff(name);
  }

  /** A created task is named by the typed text without the whitespace around
      it: a non-empty piece of the input that neither starts nor ends with
      whitespace. It is planned for exactly the selected day and has no
      start hour. */
  lemma DraftNameTrimmed(name: string, category: string, duration: string, date: string)
    requires DraftFromForm(name, category, duration, date).Some?
    ensures var d := DraftFromForm(name, category, duration, date).value;
      && d.name != []
      && !IsJsWhitespace(d.name[0]) && !IsJsWhitespace(d.name[|d.name| - 1])
      && Includes(name, d.name)
      && d.dates == [date] && d.startHour == None
  {
    TrimInfix(name);
    TrimIncluded(name);
  }

  /** The category is absent exactly when the typed category is all
      whitespace; otherwise it is the typed text without surrounding
      whitespace. */
  lemma DraftCategory(name: string, category: string, duration: string, date: string)
    requires DraftFromForm(name, category, duration, date).Some?
    ensures var d := DraftFromForm(name, category, duration, date).value;
      && (d.category.None? <==> forall k :: 0 <= k < |category| ==> IsJsWhitespace(category[k]))
      && (d.category.Some? ==> d.category.value == Trim(category) && Trim(d.category.value) == d.category.value)
  {
    TrimEmptyIff(category);
    TrimIdempotent(category);
  }

  /** An empty duration field gives no planned duration; a field holding an
      integer written out in decimal gives that integer. */
  lemma DraftDuration(name: string, category: string, n: int, date: string)
    requires Trim(name) != ""
    ensures DraftFromForm(name, category, "", date).value.plannedDuration == None
    ensures DraftFromForm(name, category, IntToString(n), date).value.plannedDuration == Some(n)
  {
    ParseIntOfIntToString(n, []);
    assert IntToString(n) + [] == IntToString(n);
  }

  /** Retyping the trimmed text makes the same task. */
  lemma DraftIgnoresSurroundingSpace(name: string, category: string, duration: string, date: string)
    ensures DraftFromForm(Trim(name), Trim(category), duration, date) == DraftFromForm(name, category, duration, date)
  {
    TrimIdempotent(name);
    TrimIdempotent(category);
  }

  /** A task created on the form shows up last in that day's list, after the
      tasks the day already had. */
  lemma CreatedShowsOnDay(tasks: seq<Task>, name: string, category: string, duration: string, date: string, id: string)
    requires DraftFromForm(name, category, duration, date).Some?
    ensures var t := TaskWithId(DraftFromForm(name, category, duration, date).value, id);
      TasksForDate(tasks + [t], date) == TasksForDate(tasks, date) + [t]
  {
    var t := TaskWithId(DraftFromForm(name, category, duration, date).value, id);
    FilterConcat(tasks, [t], OnDate(date));
    FilterSingleton(t, OnDate(date));
    assert date in t.dates;
  }

  class PlanningScreen {
    const store: Store
    var selectedDate: string
    var dialogOpen: bool
    var newName: string
    var newCategory: string
    var newDuration: string

    /** The screen opened on `today` with an empty, closed form. */
    constructor(store: Store, today: string)
      ensures this.store == store && selectedDate == today
      ensures !dialogOpen && newName == "" && newCategory == "" && newDuration == ""
    {
      this.store := store;
      selectedDate := today;
      dialogOpen, newName, newCategory, newDuration := false, "", "", "";
    }

    /** `handleCreate`: with a blank name nothing changes; otherwise the task
        from the form is added to the store with the fresh id, the three
        fields are cleared and the dialog closes. */
    method HandleCreate(freshId: string)
      modifies this, store
      ensures var d := DraftFromForm(old(newName), old(newCategory), old(newDuration), old(selectedDate));
        && (d.None? ==>
          && store.tasks == old(store.tasks)
          && newName == old(newName) && newCategory == old(newCategory) && newDuration == old(newDuration)
          && dialogOpen == old(dialogOpen))
        && (d.Some? ==>
          && store.tasks == old(store.tasks) + [TaskWithId(d.value, freshId)]
          && newName == "" && newCategory == "" && newDuration == "" && !dialogOpen)
      ensures selectedDate == old(selectedDate)
      ensures store.sessions == old(store.sessions) && store.completions == old(store.completions)
      ensures store.settings == old(store.settings)
    {
      var d := DraftFromForm(newName, newCategory, newDuration, selectedDate);
      if d.None? {
        return;
      }
      var _ := store.AddTask(d.value, freshId);
      newName, newCategory, newDuration := "", "", "";
      dialogOpen := false;
    }

    /** The checkbox of a listed task toggles that task's flag for the
        selected day and no other. */
    method ToggleCompletion(taskId: string)
      modifies store
      ensures store.completions == Toggled(old(store.completions), taskId, selectedDate)
      ensures store.tasks == old(store.tasks) && store.sessions == old(store.sessions)
      ensures store.settings == old(store.settings)
    {
      store.ToggleTaskCompletion(taskId, selectedDate);
    }

    /** The delete button removes the task from every day, not only this one. */
    method DeleteDayTask(taskId: string)
      modifies store
      ensures store.tasks == WithoutTask(old(store.tasks), taskId)
      ensures store.sessions == old(store.sessions) && store.completions == old(store.completions)
      ensures store.settings == old(store.settings)
    {
      store.DeleteTask(taskId);
    }
  }
}
