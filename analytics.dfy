/** The analysis screen's integer aggregations: minutes per day, work time
    per category, planned against actual minutes per task, and the
    `1s 5dk` minute formatter. */
module Analytics {
  import opened Types
  import opened Text
  import opened Lists
  import opened AppStore
  import opened Home

  // ------------------------------------------------------------ rounding

  /** `Math.round(seconds / 60)` for a whole number of seconds. */
  function RoundMinutes(seconds: int): (m: int)
    ensures 60 * m - 30 <= seconds < 60 * m + 30
  {
    (seconds + 30) / 60
  }

  /** Integer rounding agrees with rounding the exact quotient half up, as
      `Math.round` does. */
  lemma RoundMinutesIsMathRound(seconds: int)
    ensures RoundMinutes(seconds) == ((seconds as real) / 60.0 + 0.5).Floor
  {
    var q, r := (seconds + 30) / 60, (seconds + 30) % 60;
    assert seconds + 30 == 60 * q + r && 0 <= r < 60;
    var x := (seconds as real) / 60.0 + 0.5;
    assert x == (q as real) + (r as real) / 60.0;
    assert q as real <= x < (q as real) + 1.0;
  }

  /** The bar of one day: its work sessions' seconds in minutes. */
  function DailyMinutes(sessions: seq<Session>, date: string): int {
    RoundMinutes(SumOf(Filter(sessions, OfKindOn(Work, date)), DurationOf))
  }

  /** For today this is the home screen's work total, in minutes. */
  lemma DailyMinutesIsWorkTotal(sessions: seq<Session>, date: string)
    ensures DailyMinutes(sessions, date) == RoundMinutes(TotalWork(sessions, date))
  {
    KindTotalIsSumOfMatching(sessions, date, Work);
  }

  // ------------------------------------------------------------ categories

  const OtherCategory := "Diğer"

  /** The category shown for the first task with this id, or the catch-all
      one when there is no such task or its category is missing or empty. */
  function TaskCategory(tasks: seq<Task>, id: string): (c: string)
    ensures c != ""
  {
    if tasks == [] then OtherCategory
    else if tasks[0].id == id then
      (if tasks[0].category.Some? && tasks[0].category.value != "" then tasks[0].category.value else OtherCategory)
    else TaskCategory(tasks[1..], id)
  }

  /** The category a work session is counted under. */
  function CategoryOf(tasks: seq<Task>, s: Session): (c: string)
    ensures c != ""
  {
    TaskCategory(tasks, s.taskId)
  }

  /** The category is that of the task `tasks.find` returns for the session's
      id, or the catch-all one when the task is gone or its category is
      missing or empty. */
  lemma {:induction false} CategoryOfFoundTask(tasks: seq<Task>, s: Session)
    ensures var t := Find(tasks, HasId(s.taskId));
      CategoryOf(tasks, s) ==
        if t.Some? && t.value.category.Some? && t.value.category.value != "" then t.value.category.value
        else OtherCategory
    decreases |tasks|
  {
    if tasks != [] {
      FindCons(tasks, HasId(s.taskId));
      CategoryOfFoundTask(tasks[1..], s);
    }
  }

  function InCategory(tasks: seq<Task>, c: string): Session -> bool {
    (s: Session) => CategoryOf(tasks, s) == c
  }

  /** Reference total: the seconds of the sessions that fall in a category. */
  function CategorySeconds(ws: seq<Session>, tasks: seq<Task>, c: string): int {
    SumOf(Filter(ws, InCategory(tasks, c)), DurationOf)
  }

  /** The dictionary the loop builds, session by session. */
  function CatTotals(ws: seq<Session>, tasks: seq<Task>): map<string, int> {
    if ws == [] then map[]
    else
      var m, s := CatTotals(ws[..|ws| - 1], tasks), ws[|ws| - 1];
      var c := CategoryOf(tasks, s);
      m[c := (if c in m then m[c] else 0) + s.duration]
  }

  /** Its keys in insertion order. */
  function CatKeys(ws: seq<Session>, tasks: seq<Task>): seq<string> {
    if ws == [] then []
    else
      var k, c := CatKeys(ws[..|ws| - 1], tasks), CategoryOf(tasks, ws[|ws| - 1]);
      if c in k then k else k + [c]
  }

  function Lookup(m: map<string, int>): string -> int {
    (c: string) => if c in m then m[c] else 0
  }

  lemma SumOfLast<T>(s: seq<T>, f: T -> int)
    requires s != []
    ensures SumOf(s, f) == SumOf(s[..|s| - 1], f) + f(s[|s| - 1])
  {
    assert s == s[..|s| - 1] + [s[|s| - 1]];
    SumOfConcat(s[..|s| - 1], [s[|s| - 1]], f);
    SumOfSingleton(s[|s| - 1], f);
  }

  /** The seconds of a category grow by a session's duration exactly when it
      falls in that category. */
  lemma CategorySecondsLast(ws: seq<Session>, tasks: seq<Task>, c: string)
    requires ws != []
    ensures CategorySeconds(ws, tasks, c) ==
      CategorySeconds(ws[..|ws| - 1], tasks, c) + (if CategoryOf(tasks, ws[|ws| - 1]) == c then ws[|ws| - 1].duration else 0)
  {
    var prev, s := ws[..|ws| - 1], ws[|ws| - 1];
    assert ws == prev + [s];
    FilterConcat(prev, [s], InCategory(tasks, c));
    FilterSingleton(s, InCategory(tasks, c));
    SumOfConcat(Filter(prev, InCategory(tasks, c)), Filter([s], InCategory(tasks, c)), DurationOf);
    if CategoryOf(tasks, s) == c {
      SumOfSingleton(s, DurationOf);
    }
  }

  /** The dictionary's keys are the listed categories. */
  lemma {:induction false} CatKeysAreDomain(ws: seq<Session>, tasks: seq<Task>, c: string)
    ensures c in CatTotals(ws, tasks) <==> c in CatKeys(ws, tasks)
    decreases |ws|
  {
    if ws != [] {
      CatKeysAreDomain(ws[..|ws| - 1], tasks, c);
    }
  }

  /** A category is listed exactly when some work session falls in it. */
  lemma {:induction false} CatKeysOccur(ws: seq<Session>, tasks: seq<Task>, c: string)
    ensures c in CatKeys(ws, tasks) <==> exists k :: 0 <= k < |ws| && CategoryOf(tasks, ws[k]) == c
    decreases |ws|
  {
    if ws != [] {
      var prev := ws[..|ws| - 1];
      CatKeysOccur(prev, tasks, c);
      if exists k :: 0 <= k < |prev| && CategoryOf(tasks, prev[k]) == c {
        var k :| 0 <= k < |prev| && CategoryOf(tasks, prev[k]) == c;
        assert ws[k] == prev[k];
      }
      if exists k :: 0 <= k < |ws| && CategoryOf(tasks, ws[k]) == c {
        var k :| 0 <= k < |ws| && CategoryOf(tasks, ws[k]) == c;
        if k < |prev| {
          assert prev[k] == ws[k];
        }
      }
    }
  }

  /** Each category holds exactly the seconds of the sessions in it; an
      unlisted one holds none. */
  lemma {:induction false} CatTotalsAreSeconds(ws: seq<Session>, tasks: seq<Task>, c: string)
    ensures Lookup(CatTotals(ws, tasks))(c) == CategorySeconds(ws, tasks, c)
    decreases |ws|
  {
    if ws != [] {
      CatTotalsAreSeconds(ws[..|ws| - 1], tasks, c);
      CategorySecondsLast(ws, tasks, c);
    }
  }

  /** No category is listed twice. */
  lemma {:induction false} CatKeysDistinct(ws: seq<Session>, tasks: seq<Task>)
    ensures Distinct(CatKeys(ws, tasks))
    decreases |ws|
  {
    if ws != [] {
      CatKeysDistinct(ws[..|ws| - 1], tasks);
    }
  }

  /** Before rounding, the categories share out the whole work time. */
  lemma {:induction false} CatTotalsSumToWork(ws: seq<Session>, tasks: seq<Task>)
    ensures SumOf(CatKeys(ws, tasks), Lookup(CatTotals(ws, tasks))) == SumOf(ws, DurationOf)
    decreases |ws|
  {
    if ws != [] {
      var prev, s := ws[..|ws| - 1], ws[|ws| - 1];
      var c0, d := CategoryOf(tasks, s), s.duration;
      var k, m := CatKeys(prev, tasks), CatTotals(prev, tasks);
      var k2, m2 := CatKeys(ws, tasks), CatTotals(ws, tasks);
      CatTotalsSumToWork(prev, tasks);
      SumOfLast(ws, DurationOf);
      var ind := (c: string) => if c == c0 then d else 0;
      assert forall c :: Lookup(m2)(c) == Lookup(m)(c) + ind(c);
      SumOfAdd(k2, Lookup(m), ind, Lookup(m2));
      CatKeysDistinct(ws, tasks);
      SumOfIndicator(k2, c0, d, ind);
      if c0 !in k {
        CatKeysAreDomain(prev, tasks, c0);
        SumOfConcat(k, [c0], Lookup(m));
        SumOfSingleton(c0, Lookup(m));
      }
    }
  }

  /** One more session extends the dictionary and its key order as the loop body does. */
  lemma CatStep(ws: seq<Session>, tasks: seq<Task>, i: nat, keys: seq<string>, m: map<string, int>,
                keys2: seq<string>, m2: map<string, int>)
    requires i < |ws| && keys == CatKeys(ws[..i], tasks) && m == CatTotals(ws[..i], tasks)
    requires var c := CategoryOf(tasks, ws[i]);
      && keys2 == (if c in keys then keys else keys + [c])
      && m2 == m[c := (if c in m then m[c] else 0) + ws[i].duration]
    ensures keys2 == CatKeys(ws[..i + 1], tasks) && m2 == CatTotals(ws[..i + 1], tasks)
  {
    assert ws[..i + 1][..i] == ws[..i] && ws[..i + 1][i] == ws[i];
  }

  lemma CatListedTotals(ws: seq<Session>, tasks: seq<Task>)
    ensures forall c :: c in CatKeys(ws, tasks) ==>
      c in CatTotals(ws, tasks) && CatTotals(ws, tasks)[c] == CategorySeconds(ws, tasks, c)
  {
    forall c | c in CatKeys(ws, tasks)
      ensures c in CatTotals(ws, tasks) && CatTotals(ws, tasks)[c] == CategorySeconds(ws, tasks, c)
    {
      CatKeysAreDomain(ws, tasks, c);
      CatTotalsAreSeconds(ws, tasks, c);
    }
  }

  datatype CategoryRow = CategoryRow(name: string, minutes: int)

  /** The work sessions, in ledger order. */
  function WorkSessions(sessions: seq<Session>): seq<Session> {
    Filter(sessions, OfKind(Work))
  }

  /** The `forEach` of `categoryData`: each work session's seconds added to
      its category, keys kept in insertion order. */
  method TotalsByCategory(ws: seq<Session>, tasks: seq<Task>) returns (keys: seq<string>, catMap: map<string, int>)
    ensures keys == CatKeys(ws, tasks) && catMap == CatTotals(ws, tasks)
    ensures Distinct(keys)
    ensures forall c :: c in keys ==> c in catMap && catMap[c] == CategorySeconds(ws, tasks, c)
  {
    keys, catMap := [], map[];
    var i := 0;
    while i < |ws|
      invariant 0 <= i <= |ws|
      invariant keys == CatKeys(ws[..i], tasks) && catMap == CatTotals(ws[..i], tasks)
    {
      var s := ws[i];
      var cat := CategoryOf(tasks, s);
      ghost var keys0, catMap0 := keys, catMap;
      if cat !in keys {
        keys := keys + [cat];
      }
      catMap := catMap[cat := (if cat in catMap then catMap[cat] else 0) + s.duration];
      CatStep(ws, tasks, i, keys0, catMap0, keys, catMap);
      i := i + 1;
    }
    assert ws[..i] == ws;
    CatKeysDistinct(ws, tasks);
    CatListedTotals(ws, tasks);
  }

  /** `categoryData`: one row per category of the work sessions, in order of
      first appearance, with its seconds rounded to minutes. */
  method CategoryData(sessions: seq<Session>, tasks: seq<Task>) returns (rows: seq<CategoryRow>)
    ensures var ws := WorkSessions(sessions);
      && |rows| == |CatKeys(ws, tasks)|
      && Distinct(CatKeys(ws, tasks))
      && forall k :: 0 <= k < |rows| ==>
           rows[k].name == CatKeys(ws, tasks)[k] &&
           rows[k].minutes == RoundMinutes(CategorySeconds(ws, tasks, rows[k].name))
  {
    var keys, catMap := TotalsByCategory(WorkSessions(sessions), tasks);
    rows := seq(|keys|, k requires 0 <= k < |keys| reads {} => CategoryRow(keys[k], RoundMinutes(catMap[keys[k]])));
  }

  // ------------------------------------------------------------ planned against actual

  function WorkFor(taskId: string): Session -> bool {
    (s: Session) => s.taskId == taskId && s.kind == Work
  }

  /** The seconds of work recorded for a task. */
  function WorkSeconds(sessions: seq<Session>, taskId: string): int {
    if sessions == [] then 0
    else
      var s := sessions[0];
      (if s.taskId == taskId && s.kind == Work then s.duration else 0) + WorkSeconds(sessions[1..], taskId)
  }

  /** They are the sum over the task's work sessions, which is how the
      screen computes them. */
  lemma {:induction false} WorkSecondsIsFilterSum(sessions: seq<Session>, taskId: string)
    ensures WorkSeconds(sessions, taskId) == SumOf(Filter(sessions, WorkFor(taskId)), DurationOf)
    decreases |sessions|
  {
    if sessions != [] {
      var p := WorkFor(taskId);
      var head := if p(sessions[0]) then [sessions[0]] else [];
      WorkSecondsIsFilterSum(sessions[1..], taskId);
      SumOfConcat(head, Filter(sessions[1..], p), DurationOf);
      if p(sessions[0]) {
        SumOfSingleton(sessions[0], DurationOf);
      }
    }
  }

  /** A task's work, in rounded minutes. */
  function ActualMinutes(sessions: seq<Session>, t: Task): int {
    RoundMinutes(WorkSeconds(sessions, t.id))
  }

  datatype Planned = Planned(planned: int, actual: int)

  /** What a task contributes: only a truthy planned duration with some
      actual work makes an entry. */
  function EntryOf(sessions: seq<Session>, t: Task): (e: Option<Planned>)
    ensures e.Some? <==> t.plannedDuration.Some? && t.plannedDuration.value != 0 && ActualMinutes(sessions, t) > 0
    ensures e.Some? ==> e.value == Planned(t.plannedDuration.value, ActualMinutes(sessions, t))
  {
    if t.plannedDuration.Some? && t.plannedDuration.value != 0 && ActualMinutes(sessions, t) > 0
    then Some(Planned(t.plannedDuration.value, ActualMinutes(sessions, t)))
    else None
  }

  /** The dictionary keyed by task name that the loop builds, task by task. */
  function PredTotals(tasks: seq<Task>, sessions: seq<Session>): map<string, Planned> {
    if tasks == [] then map[]
    else
      var m, t := PredTotals(tasks[..|tasks| - 1], sessions), tasks[|tasks| - 1];
      var e := EntryOf(sessions, t);
      if e.Some? then m[t.name := e.value] else m
  }

  function PredKeys(tasks: seq<Task>, sessions: seq<Session>): seq<string> {
    if tasks == [] then []
    else
      var k, t := PredKeys(tasks[..|tasks| - 1], sessions), tasks[|tasks| - 1];
      if EntryOf(sessions, t).Some? && t.name !in k then k + [t.name] else k
  }

  /** The dictionary's keys are the listed names. */
  lemma {:induction false} PredKeysAreDomain(tasks: seq<Task>, sessions: seq<Session>, name: string)
    ensures name in PredTotals(tasks, sessions) <==> name in PredKeys(tasks, sessions)
    decreases |tasks|
  {
    if tasks != [] {
      PredKeysAreDomain(tasks[..|tasks| - 1], sessions, name);
    }
  }

  /** Every task with an entry has its name listed. */
  lemma {:induction false} PredKeyListed(tasks: seq<Task>, sessions: seq<Session>, k: nat)
    requires k < |tasks| && EntryOf(sessions, tasks[k]).Some?
    ensures tasks[k].name in PredKeys(tasks, sessions)
    decreases |tasks|
  {
    var prev := tasks[..|tasks| - 1];
    if k < |prev| {
      assert prev[k] == tasks[k];
      PredKeyListed(prev, sessions, k);
    }
  }

  /** The entry shown under a name is that of the last task of that name
      with an entry. */
  lemma {:induction false} PredTotalsLast(tasks: seq<Task>, sessions: seq<Session>, name: string)
    requires name in PredTotals(tasks, sessions)
    ensures exists k ::
      && 0 <= k < |tasks| && tasks[k].name == name && EntryOf(sessions, tasks[k]).Some?
      && PredTotals(tasks, sessions)[name] == EntryOf(sessions, tasks[k]).value
      && forall j :: k < j < |tasks| && tasks[j].name == name ==> EntryOf(sessions, tasks[j]).None?
    decreases |tasks|
  {
    var prev, t := tasks[..|tasks| - 1], tasks[|tasks| - 1];
    if t.name == name && EntryOf(sessions, t).Some? {
      assert tasks[|tasks| - 1].name == name;
    } else {
      PredTotalsLast(prev, sessions, name);
      var k :| 0 <= k < |prev| && prev[k].name == name && EntryOf(sessions, prev[k]).Some?
        && PredTotals(prev, sessions)[name] == EntryOf(sessions, prev[k]).value
        && forall j :: k < j < |prev| && prev[j].name == name ==> EntryOf(sessions, prev[j]).None?;
      assert tasks[k] == prev[k];
      forall j | k < j < |tasks| && tasks[j].name == name ensures EntryOf(sessions, tasks[j]).None? {
        if j < |prev| {
          assert tasks[j] == prev[j];
        }
      }
    }
  }

  /** A name is listed exactly when some task of that name has an entry; the
      entry shown is that of the last such task. */
  lemma PredTotalsAre(tasks: seq<Task>, sessions: seq<Session>, name: string)
    ensures name in PredTotals(tasks, sessions) <==> name in PredKeys(tasks, sessions)
    ensures name in PredKeys(tasks, sessions) <==>
      exists k :: 0 <= k < |tasks| && tasks[k].name == name && EntryOf(sessions, tasks[k]).Some?
    ensures name in PredTotals(tasks, sessions) ==>
      exists k :: 0 <= k < |tasks| && tasks[k].name == name && EntryOf(sessions, tasks[k]).Some?
        && PredTotals(tasks, sessions)[name] == EntryOf(sessions, tasks[k]).value
        && forall j :: k < j < |tasks| && tasks[j].name == name ==> EntryOf(sessions, tasks[j]).None?
  {
    PredKeysAreDomain(tasks, sessions, name);
    if name in PredTotals(tasks, sessions) {
      PredTotalsLast(tasks, sessions, name);
    }
    if exists k :: 0 <= k < |tasks| && tasks[k].name == name && EntryOf(sessions, tasks[k]).Some? {
      var k :| 0 <= k < |tasks| && tasks[k].name == name && EntryOf(sessions, tasks[k]).Some?;
      PredKeyListed(tasks, sessions, k);
    }
  }

  /** Every listed name has an entry, and every entry has positive actual
      minutes and a non-zero plan. */
  lemma {:induction false} PredListedEntries(tasks: seq<Task>, sessions: seq<Session>)
    ensures forall c :: c in PredKeys(tasks, sessions) ==> c in PredTotals(tasks, sessions)
    ensures forall c :: c in PredTotals(tasks, sessions) ==>
      PredTotals(tasks, sessions)[c].actual > 0 && PredTotals(tasks, sessions)[c].planned != 0
    decreases |tasks|
  {
    if tasks != [] {
      PredListedEntries(tasks[..|tasks| - 1], sessions);
    }
  }

  lemma {:induction false} PredKeysDistinct(tasks: seq<Task>, sessions: seq<Session>)
    ensures Distinct(PredKeys(tasks, sessions))
    decreases |tasks|
  {
    if tasks != [] {
      PredKeysDistinct(tasks[..|tasks| - 1], sessions);
    }
  }

  /** A chart label: names longer than 12 characters are cut to their first
      12 and marked with three dots. */
  function ShortName(name: string): (r: string)
    ensures |r| <= 15
  {
    if |name| > 12 then name[..12] + "..." else name
  }

  /** A shortened name keeps the first twelve characters and marks the cut;
      a short name stays as it is. */
  lemma ShortNameKeepsStart(name: string)
    ensures |name| <= 12 ==> ShortName(name) == name
    ensures |name| > 12 ==> |ShortName(name)| == 15 && name[..12] <= ShortName(name) && ShortName(name)[12..] == "..."
  {
  }

  /** Two long names that agree on their first twelve characters share a row label. */
  lemma ShortNameMerges(a: string, b: string)
    requires |a| > 12 && |b| > 12 && a[..12] == b[..12]
    ensures ShortName(a) == ShortName(b)
  {
  }

  /** For instance, two numbered homework tasks share one label. */
  lemma ShortNameMergesExample()
    ensures ShortName("Matematik odev 1") == ShortName("Matematik odev 2")
  {
    ShortNameMerges("Matematik odev 1", "Matematik odev 2");
  }

  datatype PredictionRow = PredictionRow(name: string, planned: int, actual: int, diff: int)

  /** `predictionData` without the percentage: one row per task name with an
      entry, in order of first appearance, showing the last such task's figures. */
  method PredictionData(tasks: seq<Task>, sessions: seq<Session>) returns (rows: seq<PredictionRow>)
    ensures |rows| == |PredKeys(tasks, sessions)|
    ensures Distinct(PredKeys(tasks, sessions))
    ensures forall k :: 0 <= k < |rows| ==>
      var name := PredKeys(tasks, sessions)[k];
      && name in PredTotals(tasks, sessions)
      && rows[k] == PredictionRow(ShortName(name), PredTotals(tasks, sessions)[name].planned,
                                  PredTotals(tasks, sessions)[name].actual,
                                  PredTotals(tasks, sessions)[name].actual - PredTotals(tasks, sessions)[name].planned)
    ensures forall k :: 0 <= k < |rows| ==> rows[k].actual > 0 && rows[k].planned != 0 && rows[k].diff == rows[k].actual - rows[k].planned
  {
    var keys: seq<string> := [];
    var taskMap: map<string, Planned> := map[];
    var i := 0;
    while i < |tasks|
      invariant 0 <= i <= |tasks|
      invariant keys == PredKeys(tasks[..i], sessions) && taskMap == PredTotals(tasks[..i], sessions)
    {
      var t := tasks[i];
      assert tasks[..i + 1][..i] == tasks[..i] && tasks[..i + 1][i] == t;
      if t.plannedDuration.Some? && t.plannedDuration.value != 0 {
        var actual := RoundMinutes(SumOf(Filter(sessions, WorkFor(t.id)), DurationOf));
        WorkSecondsIsFilterSum(sessions, t.id);
        if actual > 0 {
          if t.name !in keys {
            keys := keys + [t.name];
          }
          taskMap := taskMap[t.name := Planned(t.plannedDuration.value, actual)];
        }
      }
      i := i + 1;
    }
    assert tasks[..i] == tasks;
    PredKeysDistinct(tasks, sessions);
    PredListedEntries(tasks, sessions);
    rows := seq(|keys|, k requires 0 <= k < |keys| reads {} =>
      var d := taskMap[keys[k]];
      PredictionRow(ShortName(keys[k]), d.planned, d.actual, d.actual - d.planned));
  }

  // ------------------------------------------------------------ formatting

  /** `formatMin(m)`: hours and minutes from an hour on, minutes below. */
  function FormatMin(m: int): string {
    if m >= 60 then IntToString(m / 60) + "s " + IntToString(m % 60) + "dk"
    else IntToString(m) + "dk"
  }

  /** Reads a formatted minute count back. */
  function ParseMin(x: string): Option<int> {
    if |x| < 2 || x[|x| - 2..] != "dk" then None
    else
      var fields := Split(x[..|x| - 2], ' ');
      if |fields| == 1 then
        var v := fields[0];
        if v != [] && AllDigits(v) then Some(ParseNat(v) as int) else None
      else if |fields| == 2 then
        var h, r := fields[0], fields[1];
        if |h| >= 2 && h[|h| - 1] == 's' && AllDigits(h[..|h| - 1]) && r != [] && AllDigits(r)
        then Some(ParseNat(h[..|h| - 1]) * 60 + ParseNat(r))
        else None
      else None
  }

  lemma NatToStringNoSpace(n: nat)
    ensures ' ' !in NatToString(n)
  {
    var r := NatToString(n);
    assert forall i :: 0 <= i < |r| ==> r[i] != ' ';
  }

  lemma MinutesFormParse(x: string, v: string)
    requires x == v + "dk" && v != [] && AllDigits(v)
    ensures ParseMin(x).Some? && ParseMin(x).value == ParseNat(v)
  {
    assert x[..|x| - 2] == v && x[|x| - 2..] == "dk";
    assert ' ' !in v by {
      assert forall i :: 0 <= i < |v| ==> v[i] != ' ';
    }
    SplitOne(v, ' ');
  }

  lemma HoursFormParse(x: string, a: string, b: string)
    requires x == a + "s " + b + "dk" && a != [] && AllDigits(a) && b != [] && AllDigits(b)
    ensures ParseMin(x).Some? && ParseMin(x).value == ParseNat(a) * 60 + ParseNat(b)
  {
    var body := a + "s" + [' '] + b;
    assert x[..|x| - 2] == body && x[|x| - 2..] == "dk";
    assert ' ' !in a + "s" by {
      assert forall i :: 0 <= i < |a + "s"| ==> (a + "s")[i] != ' ';
    }
    assert ' ' !in b by {
      assert forall i :: 0 <= i < |b| ==> b[i] != ' ';
    }
    SplitTwo(a + "s", b, ' ');
    var h := a + "s";
    assert h[..|h| - 1] == a;
  }

  /** The minute format loses nothing for a non-negative count. */
  lemma FormatMinRoundTrip(m: nat)
    ensures ParseMin(FormatMin(m)).Some? && ParseMin(FormatMin(m)).value == m
  {
    if m >= 60 {
      var a, b := NatToString(m / 60), NatToString(m % 60);
      assert IntToString(m / 60) == a && IntToString(m % 60) == b;
      ParseNatToString(m / 60);
      ParseNatToString(m % 60);
      HoursFormParse(FormatMin(m), a, b);
    } else {
      assert IntToString(m) == NatToString(m);
      ParseNatToString(m);
      MinutesFormParse(FormatMin(m), NatToString(m));
    }
  }

  /** Below an hour only minutes are shown. */
  lemma FormatMinMinutesOnly()
    ensures FormatMin(45) == "45dk"
  {
    assert NatToString(4) == "4";
    assert NatToString(45) == NatToString(4) + "5";
  }

  /** A whole hour still shows its zero minutes. */
  lemma FormatMinWholeHour()
    ensures FormatMin(60) == "1s 0dk"
  {
    assert 60 / 60 == 1 && 60 % 60 == 0;
    assert NatToString(1) == "1" && NatToString(0) == "0";
  }

  lemma FormatMinHoursAndMinutes()
    ensures FormatMin(135) == "2s 15dk"
  {
    assert 135 / 60 == 2 && 135 % 60 == 15;
    assert NatToString(2) == "2" && NatToString(1) == "1";
    assert NatToString(15) == NatToString(1) + "5";
  }
}
