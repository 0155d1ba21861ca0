/** Entities of the time tracker: tasks, sessions and the application settings,
    with the default settings and the display names of the colour palettes. */
module Types {

  datatype Option<+T> = None | Some(value: T)

  /** A user-defined unit of work. `dates` lists the calendar days (YYYY-MM-DD)
      the task is planned on; `plannedDuration` is in minutes, `startHour` in 0..23. */
  datatype Task = Task(
    id: string,
    name: string,
    category: Option<string>,
    plannedDuration: Option<int>,
    dates: seq<string>,
    startHour: Option<int>)

  datatype SessionKind = Work | Break

  /** A committed interval of work or break time; `duration` is in seconds and
      `taskName` is a copy taken when the session was recorded. */
  datatype Session = Session(
    id: string,
    taskId: string,
    taskName: string,
    date: string,
    duration: int,
    kind: SessionKind,
    timestamp: int)

  datatype ThemeMode = Light | Dark

  datatype ColorPalette = Forest | Pink | Blue | Mono

  datatype AppSettings = AppSettings(
    themeMode: ThemeMode,
    colorPalette: ColorPalette,
    notifications: bool,
    askBreakTimer: bool,
    defaultBreakDuration: int,
    planningHourStart: int,
    planningHourEnd: int,
    onboardingDone: bool,
    useCase: Option<string>)

  /** An hour of the day as the settings use it. */
  predicate IsHour(h: int) {
    0 <= h <= 23
  }

  /** What a usable settings record has: a planning window inside one day and a
      positive default break. */
  predicate WellFormedSettings(s: AppSettings) {
    && IsHour(s.planningHourStart)
    && IsHour(s.planningHourEnd)
    && s.planningHourStart <= s.planningHourEnd
    && s.defaultBreakDuration > 0
  }

  function DefaultSettings(): (s: AppSettings)
    ensures WellFormedSettings(s)
    ensures s.askBreakTimer && s.defaultBreakDuration == 5
    ensures s.themeMode == Light && s.colorPalette == Forest
    ensures s.notifications && !s.onboardingDone && s.useCase == None
  {
    AppSettings(Light, Forest, true, true, 5, 8, 20, false, None)
  }

  /** The name the settings screen shows for each palette. */
  function PaletteName(p: ColorPalette): (name: string)
    ensures name != []
  {
    match p
    case Forest => "Forest"
    case Pink => "Pastel Pink"
    case Blue => "Steel Blue"
    case Mono => "Monochrome"
  }

  lemma PaletteNamesDistinct(p: ColorPalette, q: ColorPalette)
    ensures PaletteName(p) == PaletteName(q) <==> p == q
  {
  }
}
