/** The work stopwatch: elapsed seconds, a running flag and the task it is
    bound to, driven by start/pause/resume/stop/reset and a 1 Hz tick; and the
    `HH:MM:SS` / `MM:SS` / `SS` formatter used for every clock on screen. */
module WorkTimer {
  import opened Types
  import opened Text

  /** What a caller can observe of the stopwatch. */
  datatype TimerState = TimerState(
    elapsed: nat,
    isRunning: bool,
    taskId: Option<string>,
    taskName: Option<string>)

  const Idle := TimerState(0, false, None, None)

  /** The operations the stopwatch offers, and the interval tick. */
  datatype TimerEvent = Start(id: string, name: string) | Pause | Resume | Stop | Reset | Tick

  /** The effect of one event. A tick counts only while running; `Start`
      overwrites whatever task was bound before. */
  function Step(s: TimerState, e: TimerEvent): TimerState {
    match e
    case Start(id, name) => TimerState(0, true, Some(id), Some(name))
    case Pause => s.(isRunning := false)
    case Resume => s.(isRunning := true)
    case Stop => s.(isRunning := false)
    case Reset => Idle
    case Tick => if s.isRunning then s.(elapsed := s.elapsed + 1) else s
  }

  /** The state after a sequence of events, applied first to last. */
  function Run(s: TimerState, es: seq<TimerEvent>): TimerState {
    if es == [] then s else Step(Run(s, es[..|es| - 1]), es[|es| - 1])
  }

  lemma {:induction false} RunConcat(s: TimerState, a: seq<TimerEvent>, b: seq<TimerEvent>)
    ensures Run(s, a + b) == Run(Run(s, a), b)
    decreases |b|
  {
    if b == [] {
      assert a + b == a;
    } else {
      assert (a + b)[..|a + b| - 1] == a + b[..|b| - 1];
      RunConcat(s, a, b[..|b| - 1]);
    }
  }

  // ------------------------------------------- reference for elapsed time

  /** Whether the stopwatch runs after the events `es`, judged only by the
      last event that switches it on (start, resume) or off (pause, stop, reset). */
  function RunningAfter(init: bool, es: seq<TimerEvent>): bool {
    if es == [] then init
    else
      match es[|es| - 1]
      case Start(_, _) => true
      case Resume => true
      case Pause => false
      case Stop => false
      case Reset => false
      case Tick => RunningAfter(init, es[..|es| - 1])
  }

  /** How many of the events in `es` are ticks that arrive while the stopwatch runs. */
  function TicksWhileRunning(init: bool, es: seq<TimerEvent>): nat {
    if es == [] then 0
    else
      var prev := es[..|es| - 1];
      TicksWhileRunning(init, prev) + (if es[|es| - 1].Tick? && RunningAfter(init, prev) then 1 else 0)
  }

  predicate Rebinds(e: TimerEvent) {
    e.Start? || e.Reset?
  }

  /** Pause and resume are time-neutral: without a start or reset in
      between, elapsed grows by exactly the number of ticks received while
      running, the running flag follows the last switching event, and the
      bound task stays the same. */
  lemma {:induction false} ElapsedCountsRunningTicks(s: TimerState, es: seq<TimerEvent>)
    requires forall k :: 0 <= k < |es| ==> !Rebinds(es[k])
    ensures Run(s, es).elapsed == s.elapsed + TicksWhileRunning(s.isRunning, es)
    ensures Run(s, es).isRunning == RunningAfter(s.isRunning, es)
    ensures Run(s, es).taskId == s.taskId && Run(s, es).taskName == s.taskName
    decreases |es|
  {
    if es != [] {
      var prev := es[..|es| - 1];
      assert forall k :: 0 <= k < |prev| ==> prev[k] == es[k];
      ElapsedCountsRunningTicks(s, prev);
    }
  }

  /** After `start`, elapsed is the number of ticks received while running,
      however many pause/resume cycles there were, and the started task stays bound. */
  lemma ElapsedSinceStart(s: TimerState, id: string, name: string, es: seq<TimerEvent>)
    requires forall k :: 0 <= k < |es| ==> !Rebinds(es[k])
    ensures Run(s, [Start(id, name)] + es).elapsed == TicksWhileRunning(true, es)
    ensures Run(s, [Start(id, name)] + es).taskId == Some(id)
    ensures Run(s, [Start(id, name)] + es).taskName == Some(name)
  {
    RunConcat(s, [Start(id, name)], es);
    assert [Start(id, name)][..0] == [];
    ElapsedCountsRunningTicks(Step(s, Start(id, name)), es);
  }

  /** Ticks received while paused are not counted. */
  lemma {:induction false} PausedTicksIgnored(s: TimerState, n: nat)
    ensures Run(s, [Pause] + seq(n, _ => Tick)) == s.(isRunning := false)
    decreases n
  {
    if n > 0 {
      var es := [Pause] + seq(n, _ => Tick);
      assert es[..|es| - 1] == [Pause] + seq(n - 1, _ => Tick);
      PausedTicksIgnored(s, n - 1);
    } else {
      assert [Pause] + seq(n, _ => Tick) == [Pause];
      assert [Pause][..0] == [];
    }
  }

  /** A task is bound under both its id and its name, or not at all. */
  predicate BindingConsistent(s: TimerState) {
    s.taskId.Some? == s.taskName.Some?
  }

  lemma StepKeepsBindingConsistent(s: TimerState, e: TimerEvent)
    requires BindingConsistent(s)
    ensures BindingConsistent(Step(s, e))
  {
  }

  /** Counted time or a running clock implies a bound task. Every event keeps
      this except `resume` on a stopwatch that has no task. */
  predicate TimeIsAttributed(s: TimerState) {
    (s.isRunning || s.elapsed > 0) ==> s.taskId.Some?
  }

  lemma StepKeepsTimeAttributed(s: TimerState, e: TimerEvent)
    requires TimeIsAttributed(s)
    requires !(e.Resume? && s.taskId.None?)
    ensures TimeIsAttributed(Step(s, e))
  {
  }

  lemma ResumeFromIdleRunsUnbound()
    ensures TimeIsAttributed(Idle) && !TimeIsAttributed(Step(Idle, Resume))
    ensures Run(Idle, [Resume, Tick]).elapsed == 1 && Run(Idle, [Resume, Tick]).taskId == None
  {
    assert [Resume, Tick][..1] == [Resume];
    assert [Resume][..0] == [];
  }

  /** `pause` and `resume` only switch the running flag: elapsed and the
      binding are kept, and switching twice is switching once. */
  lemma SwitchesIdempotent(s: TimerState)
    ensures Run(s, [Pause, Pause]) == Step(s, Pause) == s.(isRunning := false)
    ensures Run(s, [Resume, Resume]) == Step(s, Resume) == s.(isRunning := true)
  {
    assert [Pause, Pause][..1] == [Pause];
    assert [Pause][..0] == [];
    assert Run(s, [Pause]) == Step(s, Pause);
    assert [Resume, Resume][..1] == [Resume];
    assert [Resume][..0] == [];
    assert Run(s, [Resume]) == Step(s, Resume);
  }

  /** `reset` reaches the idle state from anywhere, so on an idle stopwatch
      it changes nothing, and whatever ran before it is forgotten. */
  lemma ResetForgets(s: TimerState, es: seq<TimerEvent>)
    ensures Step(s, Reset) == Idle && Step(Idle, Reset) == Idle
    ensures Run(s, es + [Reset]) == Idle
  {
    assert (es + [Reset])[..|es + [Reset]| - 1] == es;
  }

  // ------------------------------------------------------------- object

  class Timer {
    var elapsed: nat
    var isRunning: bool
    var currentTaskId: Option<string>
    var currentTaskName: Option<string>

    function State(): TimerState
      reads this
    {
      TimerState(elapsed, isRunning, currentTaskId, currentTaskName)
    }

    constructor ()
      ensures State() == Idle
    {
      elapsed, isRunning := 0, false;
      currentTaskId, currentTaskName := None, None;
    }

    /** Binds the task, zeroes elapsed and starts running, whatever the
        previous state (an existing binding is overwritten). */
    method Start(taskId: string, taskName: string)
      modifies this
      ensures currentTaskId == Some(taskId) && currentTaskName == Some(taskName)
      ensures elapsed == 0 && isRunning
      ensures State() == Step(old(State()), TimerEvent.Start(taskId, taskName))
    {
      currentTaskId := Some(taskId);
      currentTaskName := Some(taskName);
      elapsed := 0;
      isRunning := true;
    }

    method Pause()
      modifies this
      ensures !isRunning
      ensures elapsed == old(elapsed) && currentTaskId == old(currentTaskId) && currentTaskName == old(currentTaskName)
      ensures State() == Step(old(State()), TimerEvent.Pause)
    {
      isRunning := false;
    }

    method Resume()
      modifies this
      ensures isRunning
      ensures elapsed == old(elapsed) && currentTaskId == old(currentTaskId) && currentTaskName == old(currentTaskName)
      ensures State() == Step(old(State()), TimerEvent.Resume)
    {
      isRunning := true;
    }

    /** Stops the clock and hands back the elapsed seconds; elapsed and the
        binding are kept for the caller to commit and reset. */
    method Stop() returns (duration: nat)
      modifies this
      ensures duration == old(elapsed)
      ensures !isRunning
      ensures elapsed == old(elapsed) && currentTaskId == old(currentTaskId) && currentTaskName == old(currentTaskName)
      ensures State() == Step(old(State()), TimerEvent.Stop)
    {
      isRunning := false;
      duration := elapsed;
    }

    method Reset()
      modifies this
      ensures State() == Idle
      ensures State() == Step(old(State()), TimerEvent.Reset)
    {
      elapsed := 0;
      isRunning := false;
      currentTaskId := None;
      currentTaskName := None;
    }

    /** One firing of the 1 Hz interval, which exists only while running. */
    method Tick()
      modifies this
      ensures elapsed == if old(isRunning) then old(elapsed) + 1 else old(elapsed)
      ensures isRunning == old(isRunning)
      ensures currentTaskId == old(currentTaskId) && currentTaskName == old(currentTaskName)
      ensures State() == Step(old(State()), TimerEvent.Tick)
    {
      if isRunning {
        elapsed := elapsed + 1;
      }
    }
  }

  // ---------------------------------------------------------- formatting

  /** JavaScript's `%`, whose remainder takes the sign of the dividend. */
  function JsRem(a: int, b: int): (r: int)
    requires b > 0
    ensures a >= 0 ==> r == a % b
  {
    if a >= 0 then a % b else -((-a) % b)
  }

  /** The remainder has the sign of the dividend and is smaller than the divisor. */
  lemma JsRemSign(a: int, b: int)
    requires b > 0
    ensures -b < JsRem(a, b) < b
    ensures a >= 0 ==> JsRem(a, b) >= 0
    ensures a <= 0 ==> JsRem(a, b) <= 0
  {
  }

  /** Negating the dividend negates the remainder; with the non-negative case
      this determines the operator. */
  lemma JsRemOdd(a: int, b: int)
    requires b > 0
    ensures JsRem(-a, b) == -JsRem(a, b)
  {
  }

  /** `formatTime(secs)`: hours, minutes and seconds as two-digit fields,
      leaving out hours when they are zero and minutes too when both are. */
  function FormatTime(secs: int): string {
    var h := secs / 3600;
    var m := JsRem(secs, 3600) / 60;
    var s := JsRem(secs, 60);
    if h > 0 then PadStart2(IntToString(h)) + ":" + PadStart2(IntToString(m)) + ":" + PadStart2(IntToString(s))
    else if m > 0 then PadStart2(IntToString(m)) + ":" + PadStart2(IntToString(s))
    else PadStart2(IntToString(s))
  }

  /** The display of given hour, minute and second fields. */
  function Display(h: nat, m: nat, s: nat): string {
    if h > 0 then Pad2(h) + ":" + Pad2(m) + ":" + Pad2(s)
    else if m > 0 then Pad2(m) + ":" + Pad2(s)
    else Pad2(s)
  }

  /** The fields of a non-negative count. */
  lemma Components(secs: nat)
    ensures secs / 3600 >= 0 && (secs % 3600) / 60 >= 0
    ensures (secs / 3600 > 0) == (secs >= 3600)
    ensures secs < 3600 ==> (secs % 3600) / 60 == secs / 60
    ensures ((secs % 3600) / 60 > 0 || secs / 3600 > 0) == (secs >= 60)
    ensures secs == (secs / 3600 * 60 + (secs % 3600) / 60) * 60 + secs % 60
  {
    var h, r := secs / 3600, secs % 3600;
    assert secs == h * 3600 + r && 0 <= r < 3600;
    var m, s := r / 60, r % 60;
    assert r == m * 60 + s && 0 <= s < 60;
    assert secs % 60 == s by {
      assert secs == (h * 60 + m) * 60 + s;
    }
  }

  lemma FormatTimeIsDisplay(secs: nat)
    ensures FormatTime(secs) == Display(secs / 3600, (secs % 3600) / 60, secs % 60)
  {
    Components(secs);
    var h, m, s := secs / 3600, (secs % 3600) / 60, secs % 60;
    assert IntToString(h) == NatToString(h);
    assert IntToString(m) == NatToString(m);
    assert IntToString(s) == NatToString(s);
  }

  /** Reads a clock display back: colon-separated digit fields in base 60. */
  function ParseClock(r: string): Option<nat> {
    var fields := Split(r, ':');
    if forall k :: 0 <= k < |fields| ==> fields[k] != [] && AllDigits(fields[k])
    then Some(Base60(fields))
    else None
  }

  function Base60(fields: seq<string>): nat
    requires forall k :: 0 <= k < |fields| ==> AllDigits(fields[k])
  {
    if fields == [] then 0
    else Base60(fields[..|fields| - 1]) * 60 + ParseNat(fields[|fields| - 1])
  }

  lemma Pad2NoColon(n: nat)
    ensures ':' !in Pad2(n)
  {
    var p := Pad2(n);
    assert forall i :: 0 <= i < |p| ==> p[i] != ':';
  }

  lemma DisplayFields(h: nat, m: nat, s: nat)
    ensures var f := Split(Display(h, m, s), ':');
      && (h > 0 ==> f == [Pad2(h), Pad2(m), Pad2(s)])
      && (h == 0 && m > 0 ==> f == [Pad2(m), Pad2(s)])
      && (h == 0 && m == 0 ==> f == [Pad2(s)])
  {
    Pad2NoColon(h);
    Pad2NoColon(m);
    Pad2NoColon(s);
    if h > 0 {
      SplitThree(Pad2(h), Pad2(m), Pad2(s), ':');
    } else if m > 0 {
      SplitTwo(Pad2(m), Pad2(s), ':');
    } else {
      SplitOne(Pad2(s), ':');
    }
  }

  lemma Base60Of(a: string, b: string, c: string)
    requires AllDigits(a) && AllDigits(b) && AllDigits(c)
    ensures Base60([a]) == ParseNat(a)
    ensures Base60([a, b]) == ParseNat(a) * 60 + ParseNat(b)
    ensures Base60([a, b, c]) == (ParseNat(a) * 60 + ParseNat(b)) * 60 + ParseNat(c)
  {
    assert [a, b, c][..2] == [a, b];
    assert [a, b][..1] == [a];
    assert [a][..0] == [];
  }

  lemma ParseClockFields(x: string, f: seq<string>)
    requires Split(x, ':') == f && 1 <= |f| <= 3
    requires forall k :: 0 <= k < |f| ==> f[k] != [] && AllDigits(f[k])
    ensures ParseClock(x).Some?
    ensures |f| == 1 ==> ParseClock(x).value == ParseNat(f[0])
    ensures |f| == 2 ==> ParseClock(x).value == ParseNat(f[0]) * 60 + ParseNat(f[1])
    ensures |f| == 3 ==> ParseClock(x).value == (ParseNat(f[0]) * 60 + ParseNat(f[1])) * 60 + ParseNat(f[2])
  {
    if |f| == 3 {
      assert f == [f[0], f[1], f[2]];
      Base60Of(f[0], f[1], f[2]);
    } else if |f| == 2 {
      assert f == [f[0], f[1]];
      Base60Of(f[0], f[1], "");
    } else {
      assert f == [f[0]];
      Base60Of(f[0], "", "");
    }
  }

  lemma ClockOfThree(x: string, a: string, b: string, c: string, h: nat, m: nat, s: nat)
    requires Split(x, ':') == [a, b, c]
    requires a != [] && b != [] && c != [] && AllDigits(a) && AllDigits(b) && AllDigits(c)
    requires ParseNat(a) == h && ParseNat(b) == m && ParseNat(c) == s
    ensures ParseClock(x).Some? && ParseClock(x).value == (h * 60 + m) * 60 + s
  {
    ParseClockFields(x, [a, b, c]);
  }

  lemma ClockOfTwo(x: string, b: string, c: string, m: nat, s: nat)
    requires Split(x, ':') == [b, c]
    requires b != [] && c != [] && AllDigits(b) && AllDigits(c)
    requires ParseNat(b) == m && ParseNat(c) == s
    ensures ParseClock(x).Some? && ParseClock(x).value == m * 60 + s
  {
    ParseClockFields(x, [b, c]);
  }

  lemma ClockOfOne(x: string, c: string, s: nat)
    requires Split(x, ':') == [c]
    requires c != [] && AllDigits(c) && ParseNat(c) == s
    ensures ParseClock(x).Some? && ParseClock(x).value == s
  {
    ParseClockFields(x, [c]);
  }

  /** A display reads back as the fields it shows, in base 60. */
  lemma DisplayRoundTrip(h: nat, m: nat, s: nat)
    ensures ParseClock(Display(h, m, s)).Some?
    ensures ParseClock(Display(h, m, s)).value ==
      if h > 0 then (h * 60 + m) * 60 + s else if m > 0 then m * 60 + s else s
  {
    DisplayFields(h, m, s);
    var x := Display(h, m, s);
    if h > 0 {
      ClockOfThree(x, Pad2(h), Pad2(m), Pad2(s), h, m, s);
    } else if m > 0 {
      ClockOfTwo(x, Pad2(m), Pad2(s), m, s);
    } else {
      ClockOfOne(x, Pad2(s), s);
    }
  }

  /** The display loses nothing: it reads back as the number it shows. */
  lemma FormatTimeRoundTrip(secs: nat)
    ensures ParseClock(FormatTime(secs)).Some?
    ensures ParseClock(FormatTime(secs)).value == secs
  {
    Components(secs);
    FormatTimeIsDisplay(secs);
    DisplayRoundTrip(secs / 3600, (secs % 3600) / 60, secs % 60);
  }

  /** The three display shapes, field by field. */
  lemma FormatTimeUnderAMinute(secs: nat)
    requires secs < 60
    ensures FormatTime(secs) == Pad2(secs)
  {
    FormatTimeIsDisplay(secs);
    assert secs / 3600 == 0 && secs % 3600 == secs && secs / 60 == 0 && secs % 60 == secs;
  }

  lemma FormatTimeUnderAnHour(secs: nat)
    requires 60 <= secs < 3600
    ensures FormatTime(secs) == Pad2(secs / 60) + ":" + Pad2(secs % 60)
  {
    Components(secs);
    FormatTimeIsDisplay(secs);
  }

  lemma FormatTimeFromAnHour(secs: nat)
    requires secs >= 3600
    ensures FormatTime(secs) == Pad2(secs / 3600) + ":" + Pad2((secs % 3600) / 60) + ":" + Pad2(secs % 60)
  {
    Components(secs);
    FormatTimeIsDisplay(secs);
  }

  lemma HoursOf(secs: nat, h: nat, r: nat)
    requires secs == h * 3600 + r && r < 3600
    ensures secs / 3600 == h && secs % 3600 == r
  {
  }

  lemma MinutesOf(x: nat, m: nat, s: nat)
    requires x == m * 60 + s && s < 60
    ensures x / 60 == m && x % 60 == s
  {
  }

  /** From an hour on, the display shows the given hour, minute and second fields. */
  lemma FormatTimeOfFields(secs: nat, h: nat, m: nat, s: nat)
    requires secs == (h * 60 + m) * 60 + s && h >= 1 && m < 60 && s < 60
    ensures FormatTime(secs) == Pad2(h) + ":" + Pad2(m) + ":" + Pad2(s)
  {
    HoursOf(secs, h, m * 60 + s);
    MinutesOf(m * 60 + s, m, s);
    MinutesOf(secs, h * 60 + m, s);
    FormatTimeFromAnHour(secs);
  }

  lemma Pad2Digit(n: nat)
    requires n < 10
    ensures Pad2(n) == ['0', DigitChar(n)]
  {
  }

  lemma Pad2FiftyNine()
    ensures Pad2(59) == "59"
  {
    assert 59 / 10 == 5 && 59 % 10 == 9;
    assert NatToString(5) == "5";
    assert NatToString(59) == "59";
  }

  // Displays at the edges of the three formats.

  lemma FormatTimeZero()
    ensures FormatTime(0) == "00"
  {
    FormatTimeUnderAMinute(0);
    Pad2Digit(0);
  }

  lemma FormatTimeLastSecondsOnly()
    ensures FormatTime(59) == "59"
  {
    FormatTimeUnderAMinute(59);
    Pad2FiftyNine();
  }

  lemma FormatTimeFirstMinute()
    ensures FormatTime(60) == "01:00"
  {
    FormatTimeUnderAnHour(60);
    assert 60 / 60 == 1 && 60 % 60 == 0;
    Pad2Digit(1);
    Pad2Digit(0);
  }

  lemma FormatTimeLastMinutesOnly()
    ensures FormatTime(3599) == "59:59"
  {
    FormatTimeUnderAnHour(3599);
    assert 3599 / 60 == 59 && 3599 % 60 == 59;
    Pad2FiftyNine();
  }

  lemma FormatTimeFirstHour()
    ensures FormatTime(3600) == "01:00:00"
  {
    FormatTimeOfFields(3600, 1, 0, 0);
    Pad2Digit(1);
    Pad2Digit(0);
    assert Pad2(1) == "01" && Pad2(0) == "00";
  }
}
