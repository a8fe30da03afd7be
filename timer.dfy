// The countdown / stopwatch widget (NotchApp/Sources/Widgets/Timer/TimerViewModel.swift):
// a small state machine over idle, running, paused and finished, driven by
// user actions and a repeating 0.25 s tick, plus the clock-face strings.
//
// `Date()` arrives as a parameter `now` (seconds) wherever the source reads
// it; the repeating timer is a flag saying whether ticks are being scheduled.
module Timer {
  import opened Wrappers
  import opened Text
  import opened ClockFace
  import Panel

  datatype TimerMode = Countdown | Stopwatch

  datatype TimerState = Idle | Running | Paused | Finished

  /** The countdown length a new timer starts with: five minutes. */
  const DefaultCountdown: real := 300.0
  /** `adjustDuration(by:)` never sets the countdown below one minute. */
  const MinCountdown: real := 60.0

  /** The view-model's stored properties, public and private. */
  datatype TimerModel = TimerModel(
    state: TimerState,
    mode: TimerMode,
    /** Elapsed time (stopwatch) or remaining time (countdown), in seconds. */
    displayTime: real,
    countdownDuration: real,
    elapsedTime: real,
    startDate: Option<real>,
    accumulatedTime: real,
    /** The repeating tick timer exists. */
    timerScheduled: bool)

  const Initial := TimerModel(Idle, Countdown, 0.0, DefaultCountdown, 0.0, None, 0.0, false)

  predicate AtRest(t: TimerModel) { t.state == Idle || t.state == Finished }

  /** `isActive`. */
  predicate IsActive(t: TimerModel) { t.state == Running || t.state == Paused }

  // ---------------------------------------------------------------------------
  // Getters
  // ---------------------------------------------------------------------------

  /** `elapsed.truncatingRemainder(dividingBy: 60)`: the seconds into the current minute. */
  function WithinMinute(elapsed: real): (r: real)
    ensures elapsed >= 0.0 ==> 0.0 <= r < 60.0
    ensures elapsed < 0.0 ==> -60.0 < r <= 0.0
  {
    elapsed - Trunc(elapsed / 60.0) as real * 60.0
  }

  /** `progress`: the fraction of the countdown left, or the stopwatch's sweep of the current minute. */
  function Progress(t: TimerModel): real
  {
    match t.mode
    case Countdown => if t.countdownDuration > 0.0 then t.displayTime / t.countdownDuration else 0.0
    case Stopwatch => WithinMinute(t.elapsedTime) / 60.0
  }

  /** The whole hours, minutes-of-hour and seconds-of-minute of a display time, as Swift's Int arithmetic computes them. */
  function Hours(display: real): int { Quot(Trunc(display), 3600) }
  function MinutesOfHour(display: real): int { Quot(Rem(Trunc(display), 3600), 60) }
  function SecondsOfMinute(display: real): int { Rem(Trunc(display), 60) }

  /** `formattedTime`: "H:MM:SS" once there is a whole hour, "MM:SS" before. */
  function FormattedTime(display: real): string
  {
    if Hours(display) > 0 then
      IntToString(Hours(display)) + ":" + Pad2(MinutesOfHour(display)) + ":" + Pad2(SecondsOfMinute(display))
    else
      Pad2(MinutesOfHour(display)) + ":" + Pad2(SecondsOfMinute(display))
  }

  /** `shortFormattedTime`: "M:SS", with the hours left out. */
  function ShortFormattedTime(display: real): string
  {
    IntToString(MinutesOfHour(display)) + ":" + Pad2(SecondsOfMinute(display))
  }

  // ---------------------------------------------------------------------------
  // The clock face reads back
  // ---------------------------------------------------------------------------

  /** The three components recombine to the whole seconds of a non-negative display time. */
  lemma ComponentsRecombine(display: real)
    requires display >= 0.0
    ensures 0 <= MinutesOfHour(display) < 60 && 0 <= SecondsOfMinute(display) < 60 && Hours(display) >= 0
    ensures Hours(display) * 3600 + MinutesOfHour(display) * 60 + SecondsOfMinute(display) == Trunc(display)
    ensures Hours(display) > 0 <==> Trunc(display) >= 3600
  {
    var total := Trunc(display);
    var h := total / 3600;
    var r := total % 3600;
    var m := r / 60;
    var s := r % 60;
    assert total == h * 3600 + r;
    assert r == m * 60 + s;
    DivModUnique(total, 60, h * 60 + m, s);
  }

  /** An "H:MM:SS" face with two-digit minutes and seconds has three fields and reads back as its seconds. */
  lemma HoursFace(h: int, m: int, sec: int, total: int)
    requires h > 0 && 0 <= m < 60 && 0 <= sec < 60 && total == h * 3600 + m * 60 + sec
    ensures var fields := Split(IntToString(h) + ":" + Pad2(m) + ":" + Pad2(sec), ":");
      |fields| == 3 && |fields[2]| == 2 && |fields[1]| == 2
    ensures ReadClock(IntToString(h) + ":" + Pad2(m) + ":" + Pad2(sec)) == Some(total)
  {
    ReadThree(IntToString(h), Pad2(m), Pad2(sec));
    assert (h * 60 + m) * 60 + sec == total;
  }

  /** An "MM:SS" face with two-digit fields has two fields and reads back as its seconds. */
  lemma MinutesFace(m: int, sec: int, total: int)
    requires 0 <= m < 60 && 0 <= sec < 60 && total == m * 60 + sec
    ensures var fields := Split(Pad2(m) + ":" + Pad2(sec), ":");
      |fields| == 2 && |fields[1]| == 2 && |fields[0]| == 2
    ensures ReadClock(Pad2(m) + ":" + Pad2(sec)) == Some(total)
  {
    ReadTwo(Pad2(m), Pad2(sec));
  }

  /** `formattedTime` splits into two or three two-digit-tailed fields and reads back as the whole seconds shown. */
  lemma FormattedTimeReadsBack(display: real)
    requires display >= 0.0
    ensures var fields := Split(FormattedTime(display), ":");
      |fields| == (if Trunc(display) >= 3600 then 3 else 2)
      && |fields[|fields| - 1]| == 2 && |fields[|fields| - 2]| == 2
    ensures ReadClock(FormattedTime(display)) == Some(Trunc(display))
  {
    ComponentsRecombine(display);
    var h, m, sec := Hours(display), MinutesOfHour(display), SecondsOfMinute(display);
    if h > 0 {
      HoursFace(h, m, sec, Trunc(display));
    } else {
      MinutesFace(m, sec, Trunc(display));
    }
  }

  /** `shortFormattedTime` reads back as the display time with whole hours dropped. */
  lemma ShortFormattedTimeDropsHours(display: real)
    requires display >= 0.0
    ensures |Split(ShortFormattedTime(display), ":")| == 2
    ensures ReadClock(ShortFormattedTime(display)) == Some(Trunc(display) % 3600)
  {
    ComponentsRecombine(display);
    var m, s := MinutesOfHour(display), SecondsOfMinute(display);
    ReadTwo(IntToString(m), Pad2(s));
    DivModUnique(Trunc(display), 3600, Hours(display), m * 60 + s);
  }

  // ---------------------------------------------------------------------------
  // Actions
  // ---------------------------------------------------------------------------

  /** `start()`: from rest, restart from zero (or the full countdown) and schedule ticks. */
  function StartStep(t: TimerModel, now: real): TimerModel
  {
    if !AtRest(t) then t
    else t.(elapsedTime := 0.0, accumulatedTime := 0.0, startDate := Some(now),
            displayTime := if t.mode == Countdown then t.countdownDuration else 0.0,
            state := Running, timerScheduled := true)
  }

  /** `resume()`: from paused, restart the clock at `now`. */
  function ResumeStep(t: TimerModel, now: real): TimerModel
  {
    if t.state != Paused then t
    else t.(startDate := Some(now), state := Running, timerScheduled := true)
  }

  /** `pause()`: bank the elapsed time of the last tick and stop ticking. */
  function PauseStep(t: TimerModel): TimerModel
  {
    if t.state != Running then t
    else t.(accumulatedTime := t.elapsedTime, startDate := None, state := Paused, timerScheduled := false)
  }

  /** `toggleStartPause()`. */
  function ToggleStep(t: TimerModel, now: real): TimerModel
  {
    match t.state
    case Idle => StartStep(t, now)
    case Finished => StartStep(t, now)
    case Running => PauseStep(t)
    case Paused => ResumeStep(t, now)
  }

  /** `reset()`. */
  function ResetStep(t: TimerModel): TimerModel
  {
    t.(timerScheduled := false, elapsedTime := 0.0, accumulatedTime := 0.0, startDate := None, state := Idle,
       displayTime := if t.mode == Countdown then t.countdownDuration else 0.0)
  }

  /** `setMode(_:)`: only at rest, then a reset. */
  function SetModeStep(t: TimerModel, mode: TimerMode): TimerModel
  {
    if !AtRest(t) then t else ResetStep(t.(mode := mode))
  }

  /** `adjustDuration(by:)`: only at rest; never below a minute; the display shows the new length. */
  function AdjustStep(t: TimerModel, delta: real): TimerModel
  {
    if !AtRest(t) then t
    else
      var d := if MinCountdown >= t.countdownDuration + delta then MinCountdown else t.countdownDuration + delta;
      t.(countdownDuration := d, displayTime := d)
  }

  /**
   * `tick()`: the new model, and whether the countdown finished on this tick
   * (which stops ticking and asks the notch panel to expand).
   */
  function TickStep(t: TimerModel, now: real): (TimerModel, bool)
  {
    if t.state != Running || t.startDate.None? then (t, false)
    else
      var elapsed := t.accumulatedTime + (now - t.startDate.value);
      var t1 := t.(elapsedTime := elapsed);
      match t.mode
      case Stopwatch => (t1.(displayTime := elapsed), false)
      case Countdown =>
        var remaining := t.countdownDuration - elapsed;
        if remaining <= 0.0 then (t1.(displayTime := 0.0, timerScheduled := false, state := Finished), true)
        else (t1.(displayTime := remaining), false)
  }

  datatype TimerOp =
    | Start(now: real)
    | Resume(now: real)
    | Pause
    | Toggle(now: real)
    | Reset
    | SetMode(mode: TimerMode)
    | Adjust(delta: real)
    | Tick(now: real)

  function Apply(t: TimerModel, op: TimerOp): TimerModel
  {
    match op
    case Start(now) => StartStep(t, now)
    case Resume(now) => ResumeStep(t, now)
    case Pause => PauseStep(t)
    case Toggle(now) => ToggleStep(t, now)
    case Reset => ResetStep(t)
    case SetMode(m) => SetModeStep(t, m)
    case Adjust(delta) => AdjustStep(t, delta)
    case Tick(now) => TickStep(t, now).0
  }

  function Run(t: TimerModel, ops: seq<TimerOp>): TimerModel
  {
    if ops == [] then t else Apply(Run(t, ops[..|ops| - 1]), ops[|ops| - 1])
  }

  // ---------------------------------------------------------------------------
  // Invariants and properties
  // ---------------------------------------------------------------------------

  /**
   * Ticks are scheduled exactly while running; a running timer has a start
   * date and a paused one none; the countdown is at least a minute; times are
   * non-negative, and a countdown's display never exceeds its length.
   */
  predicate Inv(t: TimerModel)
  {
    (t.state == Running <==> t.timerScheduled)
    && (t.state == Running ==> t.startDate.Some?)
    && (t.state == Paused ==> t.startDate.None?)
    && t.countdownDuration >= MinCountdown
    && t.elapsedTime >= 0.0 && t.accumulatedTime >= 0.0 && t.displayTime >= 0.0
    && (t.mode == Countdown ==> t.displayTime <= t.countdownDuration)
  }

  /** The wall clock read by an action does not run behind the timer's start date. */
  predicate ClockForward(t: TimerModel, op: TimerOp)
  {
    op.Tick? && t.startDate.Some? ==> op.now >= t.startDate.value
  }

  lemma InitialInv()
    ensures Inv(Initial) && !IsActive(Initial) && Progress(Initial) == 0.0
  {
  }

  /** Every action keeps the invariant, provided the clock does not run backwards. */
  lemma ApplyKeepsInv(t: TimerModel, op: TimerOp)
    requires Inv(t) && ClockForward(t, op)
    ensures Inv(Apply(t, op))
  {
  }

  /** Under the invariant, `progress` is a fraction: in [0, 1] for a countdown, in [0, 1) for a stopwatch. */
  lemma ProgressIsFraction(t: TimerModel)
    requires Inv(t)
    ensures 0.0 <= Progress(t) <= 1.0
    ensures t.mode == Stopwatch ==> Progress(t) < 1.0
  {
    if t.mode == Countdown {
      assert t.displayTime / t.countdownDuration * t.countdownDuration == t.displayTime;
    }
  }

  /** `start`, `setMode` and `adjustDuration` act only at rest; `pause` only while running; `resume` only while paused. */
  lemma ActionsGuarded(t: TimerModel, now: real, mode: TimerMode, delta: real)
    ensures !AtRest(t) ==> StartStep(t, now) == t && SetModeStep(t, mode) == t && AdjustStep(t, delta) == t
    ensures t.state != Running ==> PauseStep(t) == t
    ensures t.state != Paused ==> ResumeStep(t, now) == t
    ensures t.state != Running ==> TickStep(t, now) == (t, false)
  {
  }

  /** Toggling twice from running resumes at the new instant with the elapsed time banked. */
  lemma ToggleTwicePausesAndResumes(t: TimerModel, now1: real, now2: real)
    requires Inv(t) && t.state == Running
    ensures var t2 := ToggleStep(ToggleStep(t, now1), now2);
      t2.state == Running && t2.timerScheduled && t2.startDate == Some(now2)
      && t2.accumulatedTime == t.elapsedTime && t2.displayTime == t.displayTime && t2.mode == t.mode
  {
  }

  /**
   * A paused interval is not counted: a stopwatch started at `t0`, ticked at
   * `t1`, paused, resumed at `t2` and ticked at `t3` shows the two running
   * stretches and nothing of the pause between `t1` and `t2`.
   */
  lemma {:induction false} PausedTimeNotCounted(t: TimerModel, t0: real, t1: real, t2: real, t3: real)
    requires AtRest(t) && t.mode == Stopwatch
    ensures var r := Run(t, [Start(t0), Tick(t1), Pause, Resume(t2), Tick(t3)]);
      r.state == Running && r.elapsedTime == (t1 - t0) + (t3 - t2) && r.displayTime == r.elapsedTime
  {
    var ops := [Start(t0), Tick(t1), Pause, Resume(t2), Tick(t3)];
    assert ops[..1][..0] == [];
    assert ops[..2][..1] == ops[..1];
    assert ops[..3][..2] == ops[..2];
    assert ops[..4][..3] == ops[..3];
    var a := StartStep(t, t0);
    assert Run(t, ops[..1]) == a;
    var b := TickStep(a, t1).0;
    assert b.elapsedTime == t1 - t0;
    assert Run(t, ops[..2]) == b;
    var c := PauseStep(b);
    assert Run(t, ops[..3]) == c;
    var d := ResumeStep(c, t2);
    assert ops[3] == TimerOp.Resume(t2);
    assert ops[..4][|ops[..4]| - 1] == ops[3];
    assert Run(t, ops[..4]) == ResumeStep(Run(t, ops[..3]), t2);
    assert Run(t, ops[..4]) == d;
    assert d.accumulatedTime == t1 - t0 && d.startDate == Some(t2);
  }

  /**
   * A countdown tick finishes exactly when the banked plus running time
   * reaches the countdown length; finishing shows zero, stops ticking and
   * asks for the panel. A stopwatch never finishes.
   */
  lemma CountdownFinishes(t: TimerModel, now: real)
    requires Inv(t) && t.state == Running
    ensures var (t1, expand) := TickStep(t, now);
      var elapsed := t.accumulatedTime + (now - t.startDate.value);
      t1.elapsedTime == elapsed
      && (expand <==> t.mode == Countdown && elapsed >= t.countdownDuration)
      && (expand ==> t1.state == Finished && t1.displayTime == 0.0 && !t1.timerScheduled)
      && (!expand ==> t1.state == Running && t1.timerScheduled)
      && (t.mode == Countdown && !expand ==> t1.displayTime == t.countdownDuration - elapsed > 0.0)
      && (t.mode == Stopwatch ==> t1.displayTime == elapsed)
  {
  }

  /** Reset ends all activity and puts the display back to the full countdown, or zero. */
  lemma ResetRestores(t: TimerModel)
    requires Inv(t)
    ensures var r := ResetStep(t);
      !IsActive(r) && !r.timerScheduled && r.elapsedTime == 0.0 && r.accumulatedTime == 0.0
      && r.displayTime == (if t.mode == Countdown then t.countdownDuration else 0.0)
      && (t.mode == Countdown ==> Progress(r) == 1.0)
      && (t.mode == Stopwatch ==> Progress(r) == 0.0)
  {
  }

  /** Adjusting at rest moves the countdown by `delta` but never below a minute, and the display follows. */
  lemma AdjustClampsAtMinute(t: TimerModel, delta: real)
    requires AtRest(t)
    ensures var r := AdjustStep(t, delta);
      r.countdownDuration >= MinCountdown && r.displayTime == r.countdownDuration
      && (t.countdownDuration + delta >= MinCountdown ==> r.countdownDuration == t.countdownDuration + delta)
      && (t.countdownDuration + delta < MinCountdown ==> r.countdownDuration == MinCountdown)
  {
  }

  // ---------------------------------------------------------------------------
  // The view-model object
  // ---------------------------------------------------------------------------

  class TimerViewModel {
    var state: TimerState
    var mode: TimerMode
    var displayTime: real
    var countdownDuration: real
    var elapsedTime: real
    var startDate: Option<real>
    var accumulatedTime: real
    var timerScheduled: bool

    function Snapshot(): TimerModel
      reads this
    {
      TimerModel(state, mode, displayTime, countdownDuration, elapsedTime, startDate, accumulatedTime,
                 timerScheduled)
    }

    constructor ()
      ensures Snapshot() == Initial
    {
      state := Idle;
      mode := Countdown;
      displayTime := 0.0;
      countdownDuration := DefaultCountdown;
      elapsedTime := 0.0;
      startDate := None;
      accumulatedTime := 0.0;
      timerScheduled := false;
    }

    method Start(now: real)
      modifies this
      ensures Snapshot() == Apply(old(Snapshot()), TimerOp.Start(now))
    {
      if !(state == Idle || state == Finished) {
        return;
      }
      elapsedTime := 0.0;
      accumulatedTime := 0.0;
      startDate := Some(now);
      if mode == Countdown {
        displayTime := countdownDuration;
      } else {
        displayTime := 0.0;
      }
      state := Running;
      timerScheduled := true;
    }

    method Resume(now: real)
      modifies this
      ensures Snapshot() == Apply(old(Snapshot()), TimerOp.Resume(now))
    {
      if state != Paused {
        return;
      }
      startDate := Some(now);
      state := Running;
      timerScheduled := true;
    }

    method Pause()
      modifies this
      ensures Snapshot() == Apply(old(Snapshot()), TimerOp.Pause)
    {
      if state != Running {
        return;
      }
      accumulatedTime := elapsedTime;
      startDate := None;
      state := Paused;
      timerScheduled := false;
    }

    method ToggleStartPause(now: real)
      modifies this
      ensures Snapshot() == Apply(old(Snapshot()), TimerOp.Toggle(now))
    {
      match state {
        case Idle => Start(now);
        case Finished => Start(now);
        case Running => Pause();
        case Paused => Resume(now);
      }
    }

    method Reset()
      modifies this
      ensures Snapshot() == Apply(old(Snapshot()), TimerOp.Reset)
    {
      timerScheduled := false;
      elapsedTime := 0.0;
      accumulatedTime := 0.0;
      startDate := None;
      state := Idle;
      displayTime := if mode == Countdown then countdownDuration else 0.0;
    }

    method SetMode(newMode: TimerMode)
      modifies this
      ensures Snapshot() == Apply(old(Snapshot()), TimerOp.SetMode(newMode))
    {
      if !(state == Idle || state == Finished) {
        return;
      }
      mode := newMode;
      Reset();
    }

    method AdjustDuration(delta: real)
      modifies this
      ensures Snapshot() == Apply(old(Snapshot()), TimerOp.Adjust(delta))
    {
      if !(state == Idle || state == Finished) {
        return;
      }
      countdownDuration := if MinCountdown >= countdownDuration + delta then MinCountdown
                           else countdownDuration + delta;
      displayTime := countdownDuration;
    }

    /** `tick()` at `now`; on finishing, `finish()` expands the shared notch panel (the beep is not modelled). */
    method Tick(now: real, panel: Panel.NotchViewModel)
      requires panel.Valid()
      modifies this, panel, panel.bus
      ensures Snapshot() == Apply(old(Snapshot()), TimerOp.Tick(now))
      ensures TickStep(old(Snapshot()), now).1 ==>
                panel.Valid()
                && panel.Snapshot() == Panel.Step(old(panel.Snapshot()), Panel.Op.Expand).0
                && panel.bus.log == old(panel.bus.log) + Panel.Step(old(panel.Snapshot()), Panel.Op.Expand).1
                && panel.notchGeometry == old(panel.notchGeometry) && panel.isHUDVisible == old(panel.isHUDVisible)
      ensures !TickStep(old(Snapshot()), now).1 ==> unchanged(panel, panel.bus)
    {
      if state != Running || startDate.None? {
        return;
      }
      var start := startDate.value;
      elapsedTime := accumulatedTime + (now - start);
      match mode {
        case Stopwatch =>
          displayTime := elapsedTime;
        case Countdown =>
          var remaining := countdownDuration - elapsedTime;
          if remaining <= 0.0 {
            displayTime := 0.0;
            Finish(panel);
          } else {
            displayTime := remaining;
          }
      }
    }

    /** `finish()`. */
    method Finish(panel: Panel.NotchViewModel)
      requires panel.Valid()
      modifies this, panel, panel.bus
      ensures Snapshot() == old(Snapshot()).(timerScheduled := false, state := Finished)
      ensures panel.Valid()
      ensures panel.Snapshot() == Panel.Step(old(panel.Snapshot()), Panel.Op.Expand).0
      ensures panel.bus.log == old(panel.bus.log) + Panel.Step(old(panel.Snapshot()), Panel.Op.Expand).1
      ensures panel.notchGeometry == old(panel.notchGeometry) && panel.isHUDVisible == old(panel.isHUDVisible)
    {
      timerScheduled := false;
      state := Finished;
      panel.Expand();
    }
  }
}
