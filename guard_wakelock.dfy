/** The "hh:mm:ss" text of greenwake-guard's remaining time. */
module GuardClock {
  import opened GoText

  /** "%02d:%02d:%02d" of hours, minutes and seconds, each computed with
      Go's truncating division and remainder. */
  function Clock(secs: int): (r: string)
  {
    Pad2(Quot(secs, 3600)) + ":" + Pad2(Quot(Rem(secs, 3600), 60)) + ":" + Pad2(Rem(secs, 60))
  }

  /** Reads an "h:m:s" text back into seconds. */
  function ParseClock(text: string): (r: Option<int>)
  {
    var parts := Split(text, ':');
    if |parts| != 3 then None
    else match (Atoi(parts[0]), Atoi(parts[1]), Atoi(parts[2]))
      case (Some(h), Some(m), Some(sec)) => Some(h * 3600 + m * 60 + sec)
      case _ => None
  }

  lemma ModOfMod(a: nat)
    ensures (a % 3600) % 60 == a % 60
  {
    var q := a / 3600;
    var x := a % 3600;
    assert a == 60 * (60 * q) + x;
    assert x == 60 * (x / 60) + x % 60;
    assert a == 60 * (60 * q + x / 60) + x % 60;
  }

  /** The three clock fields add back up to the remaining seconds, and the
      minutes and seconds stay below 60 in magnitude. */
  lemma ClockFields(secs: int)
    ensures Quot(secs, 3600) * 3600 + Quot(Rem(secs, 3600), 60) * 60 + Rem(secs, 60) == secs
    ensures -60 < Quot(Rem(secs, 3600), 60) < 60 && -60 < Rem(secs, 60) < 60
    ensures secs >= 0 ==> 0 <= Quot(Rem(secs, 3600), 60) < 60 && 0 <= Rem(secs, 60) < 60
  {
    var x := Rem(secs, 3600);
    if secs >= 0 {
      ModOfMod(secs);
    } else {
      ModOfMod(-secs);
      assert x == -((-secs) % 3600);
    }
    assert Rem(x, 60) == Rem(secs, 60);
  }

  lemma SplitClock(a: string, b: string, c: string)
    requires ':' !in a && ':' !in b && ':' !in c
    ensures Split(a + ":" + b + ":" + c, ':') == [a, b, c]
  {
    var u, t := a + [':'], b + [':'] + c;
    AppendAssoc(u, b, [':']);
    AppendAssoc(u, b + [':'], c);
    assert a + ":" + b + ":" + c == u + t;
    SplitOfThree(a, b, c);
  }

  lemma SplitOfThree(a: string, b: string, c: string)
    requires ':' !in a && ':' !in b && ':' !in c
    ensures Split(a + [':'] + (b + [':'] + c), ':') == [a, b, c]
  {
    SplitNone(c, ':');
    SplitFirst(b, c, ':');
    SplitFirst(a, b + [':'] + c, ':');
  }

  lemma ParseClockOf(a: string, b: string, c: string, h: int, m: int, sec: int)
    requires ':' !in a && ':' !in b && ':' !in c
    requires Atoi(a) == Some(h) && Atoi(b) == Some(m) && Atoi(c) == Some(sec)
    ensures ParseClock(a + ":" + b + ":" + c) == Some(h * 3600 + m * 60 + sec)
  {
    SplitClock(a, b, c);
    ParseClockParts(a + ":" + b + ":" + c, a, b, c, h, m, sec);
  }

  /** ParseClock of a text that splits into three numbers. */
  lemma ParseClockParts(text: string, a: string, b: string, c: string, h: int, m: int, sec: int)
    requires Split(text, ':') == [a, b, c]
    requires Atoi(a) == Some(h) && Atoi(b) == Some(m) && Atoi(c) == Some(sec)
    ensures ParseClock(text) == Some(h * 3600 + m * 60 + sec)
  {
  }

  /** Reading the clock text back gives the remaining seconds. */
  lemma ClockRoundTrip(secs: int)
    requires MinInt64 <= secs <= MaxInt64
    ensures ParseClock(Clock(secs)) == Some(secs)
  {
    var h, m, sec := Quot(secs, 3600), Quot(Rem(secs, 3600), 60), Rem(secs, 60);
    ClockFields(secs);
    HoursInRange(secs);
    ParseClockOf(Pad2(h), Pad2(m), Pad2(sec), h, m, sec);
  }

  lemma HoursInRange(secs: int)
    requires MinInt64 <= secs <= MaxInt64
    ensures MinInt64 <= Quot(secs, 3600) <= MaxInt64
  {
  }

  lemma Pad2Zero()
    ensures Pad2(0) == "00"
  {
    assert Itoa(0) == "0";
  }

  lemma ClockFieldsZero()
    ensures Clock(0) == Pad2(0) + ":" + Pad2(0) + ":" + Pad2(0)
  {
    assert Quot(0, 3600) == 0 && Rem(0, 3600) == 0 && Quot(0, 60) == 0 && Rem(0, 60) == 0;
  }

  lemma ClockZero()
    ensures Clock(0) == "00:00:00"
  {
    Pad2Zero();
    ClockFieldsZero();
  }

}

/** The greenwake-guard wake-lock service: the wake strategy, the sleep
    mode, the temporary-wake flag after an external wake event and the
    program-controlled sleep timer.

    The operating-system lock is the ghost flag `lockHeld`; every
    `time.AfterFunc` callback the service arms is counted while pending and
    runs when its Fire* method is called; `sleepRequests` counts the forced
    system sleeps. Durations are in nanoseconds, as Go's time.Duration. */
module GuardWakeLock {
  import opened GoText
  import opened GuardClock
  import GuardConfig

  const ExternalWake: string := "external_wake"
  const Permanent: string := "permanent"
  const Timed: string := "timed"
  const SystemMode: string := "system"
  const ProgramMode: string := "program"

  /** The smallest accepted sleep delay and external-wake timeout, in seconds. */
  const MinSeconds: int := 30
  const NanosPerSecond: int := 1_000_000_000

  /** Everything the service holds, as one value. */
  datatype State = State(
    strategy: string,
    sleepMode: string,
    temporaryWake: bool,
    programSleepDelay: int,
    timeoutSecs: int,
    validEvents: seq<string>,
    hasSleepTimer: bool,        // sleepTimer != nil
    sleepTimerArmed: bool,      // ... and it has neither fired nor been stopped
    lastWakeEvent: string,
    remainingTime: int,
    duration: int,
    pendingWakeTimeouts: nat,   // armed external-wake timeouts
    pendingTimedExpiries: nat,  // armed expiries of StrategySet(timed, d)
    pendingInitExpiries: nat,   // armed expiries of InitializeState(timed, ...)
    lockHeld: bool,
    sleepRequests: nat,
    doneClosed: bool)           // the done channel is closed (only Stop leaves it closed)

  /** A sleep timer only fires while the service still refers to it, and
      never in system mode. */
  predicate Consistent(s: State) {
    s.sleepTimerArmed ==> s.hasSleepTimer && s.sleepMode != SystemMode
  }

  /** The condition under which checkStatus starts the sleep timer. */
  predicate ShouldStartSleepTimer(s: State) {
    s.strategy == ExternalWake && !s.temporaryWake && s.sleepMode == ProgramMode && !s.hasSleepTimer
  }

  /** cancelSleepTimer: stops and forgets a timer, if there is one. */
  function Cancelled(s: State): (r: State)
    ensures !r.hasSleepTimer
    ensures (s.sleepTimerArmed ==> s.hasSleepTimer) ==> r == s.(hasSleepTimer := false, sleepTimerArmed := false)
  {
    if s.hasSleepTimer then s.(hasSleepTimer := false, sleepTimerArmed := false) else s
  }

  /** startSleepTimer: a fresh timer replaces any previous one. */
  function TimerStarted(s: State): (r: State)
  {
    Cancelled(s).(hasSleepTimer := true, sleepTimerArmed := true)
  }

  function Checked(s: State): (r: State)
  {
    if ShouldStartSleepTimer(s) then TimerStarted(s) else s
  }

  function Woken(s: State, eventType: string): (r: State)
  {
    if eventType !in s.validEvents then s
    else
      Cancelled(s).(lockHeld := true, temporaryWake := true, lastWakeEvent := eventType,
                           pendingWakeTimeouts := s.pendingWakeTimeouts + 1)
  }

  /** The external-wake timeout armed by HandleWakeEvent. */
  function TimedOut(s: State): (r: State)
    requires s.pendingWakeTimeouts > 0
  {
    var s1 := s.(pendingWakeTimeouts := s.pendingWakeTimeouts - 1);
    if s.temporaryWake then s1.(temporaryWake := false, lockHeld := false) else s1
  }

  function StrategySet(s: State, strategy: string, duration: int): (r: State)
  {
    StrategyApplied(if strategy == Permanent || strategy == Timed then Cancelled(s) else s, strategy, duration)
  }

  /** SetStrategy after the sleep timer is dealt with: the new strategy,
      the lock it asks for and, under timed, the duration and its expiry. */
  function StrategyApplied(s: State, strategy: string, duration: int): (r: State)
  {
    var s2 := s.(strategy := strategy);
    if strategy == Timed then
      s2.(remainingTime := Quot(duration, NanosPerSecond), duration := duration, lockHeld := true,
          pendingTimedExpiries := s.pendingTimedExpiries + 1)
    else if strategy == Permanent then s2.(lockHeld := true)
    else s2.(lockHeld := false)
  }

  /** The expiry armed by StrategySet(timed, d). */
  function TimedExpired(s: State): (r: State)
    requires s.pendingTimedExpiries > 0
  {
    var s1 := s.(pendingTimedExpiries := s.pendingTimedExpiries - 1, lockHeld := false);
    if s.sleepMode == ProgramMode then TimerStarted(s1) else s1
  }

  /** The expiry armed by InitializeState(timed, ...). */
  function InitExpired(s: State): (r: State)
    requires s.pendingInitExpiries > 0
  {
    s.(pendingInitExpiries := s.pendingInitExpiries - 1, lockHeld := false)
  }

  /** The sleep timer fires: forceSystemSleep. The service keeps its
      reference to the spent timer. */
  function SleepTimerFired(s: State): (r: State)
    requires s.sleepTimerArmed
  {
    s.(sleepTimerArmed := false, lockHeld := false, sleepRequests := s.sleepRequests + 1)
  }

  function ModeSet(s: State, mode: string): (r: State)
  {
    if s.sleepMode == mode then s
    else if mode == SystemMode then Cancelled(s.(sleepMode := mode))
    else s.(sleepMode := mode)
  }

  function Initialized(s: State, strategy: string, mode: string, duration: int): (r: State)
  {
    InitialLock(Cancelled(s.(strategy := strategy, sleepMode := mode, temporaryWake := false,
                             duration := duration)), strategy)
  }

  /** InitializeState after the timer is cancelled: the lock the strategy
      asks for and, under timed, its expiry. */
  function InitialLock(s: State, strategy: string): (r: State)
  {
    if strategy == Permanent || strategy == Timed then
      s.(lockHeld := true,
         pendingInitExpiries := s.pendingInitExpiries + if strategy == Timed then 1 else 0)
    else s.(lockHeld := false)
  }

  /** Stop after it has closed the done channel. */
  function Stopped(s: State): (r: State)
  {
    Cancelled(s).(lockHeld := false, doneClosed := true)
  }

  /** Closing the done channel panics when it is already closed: Stop does
      so always, SetSleepMode only on a change to system mode. */
  predicate StopPanics(s: State) {
    s.doneClosed
  }

  predicate ModeSetPanics(s: State, mode: string) {
    s.sleepMode != mode && mode == SystemMode && s.doneClosed
  }

  /** The floor of 30 seconds applied to the sleep delay and the wake timeout. */
  function AtLeastMin(v: int): (r: int)
    ensures r >= MinSeconds
    ensures r == v || (v < MinSeconds && r == MinSeconds)
    ensures v >= MinSeconds ==> r == v
  {
    if v < MinSeconds then MinSeconds else v
  }

  // ---------------------------------------------------------------------
  // Properties of the transitions

  /** A wake event of a type that is not listed changes nothing. */
  lemma InvalidEventIgnored(s: State, eventType: string)
    requires eventType !in s.validEvents
    ensures Woken(s, eventType) == s
  {
  }

  /** After a valid wake event no sleep timer is pending, the lock is held,
      the temporary-wake flag is set, the event type is recorded and one
      more timeout is armed. */
  lemma ValidEventWakes(s: State, eventType: string)
    requires Consistent(s)
    requires eventType in s.validEvents
    ensures var r := Woken(s, eventType);
      !r.hasSleepTimer && !r.sleepTimerArmed && r.lockHeld && r.temporaryWake
      && r.lastWakeEvent == eventType && r.pendingWakeTimeouts == s.pendingWakeTimeouts + 1
      && r.strategy == s.strategy && r.sleepMode == s.sleepMode
  {
  }

  /** A wake timeout releases the lock only if the temporary wake is still on. */
  lemma WakeTimeoutReleases(s: State)
    requires s.pendingWakeTimeouts > 0
    ensures !TimedOut(s).temporaryWake
    ensures TimedOut(s).lockHeld == (s.lockHeld && !s.temporaryWake)
  {
  }

  /** SetStrategy: permanent and timed cancel the sleep timer and hold the
      lock, timed records the duration and its whole seconds, and every
      other strategy releases the lock. */
  lemma SetStrategyLock(s: State, strategy: string, duration: int)
    ensures var r := StrategySet(s, strategy, duration);
      r.strategy == strategy
      && (r.lockHeld <==> strategy == Permanent || strategy == Timed)
      && (strategy == Permanent || strategy == Timed ==> !r.hasSleepTimer)
      && (strategy != Permanent && strategy != Timed ==> r.hasSleepTimer == s.hasSleepTimer)
      && (strategy == Timed ==> r.duration == duration)
      && (strategy == Timed && duration >= 0 ==>
            r.remainingTime * NanosPerSecond <= duration < (r.remainingTime + 1) * NanosPerSecond)
      && (strategy == Timed && duration < 0 ==>
            (r.remainingTime - 1) * NanosPerSecond < duration <= r.remainingTime * NanosPerSecond)
      && (strategy != Timed ==> r.duration == s.duration && r.remainingTime == s.remainingTime)
  {
    var q := Quot(duration, NanosPerSecond);
    if duration < 0 {
      assert duration == q * NanosPerSecond + Rem(duration, NanosPerSecond);
    }
  }

  /** checkStatus starts the sleep timer exactly when the strategy is
      external wake, no temporary wake is on, the mode is program and no
      timer exists; a second check then does nothing. */
  lemma CheckStartsTimer(s: State)
    ensures Checked(s).hasSleepTimer && Checked(s).sleepTimerArmed <== ShouldStartSleepTimer(s)
    ensures !ShouldStartSleepTimer(s) ==> Checked(s) == s
    ensures !ShouldStartSleepTimer(Checked(s))
    ensures Checked(Checked(s)) == Checked(s)
  {
  }

  /** Choosing the current sleep mode is a no-op; switching to system mode
      leaves no sleep timer. */
  lemma SetSleepModeEffect(s: State, mode: string)
    requires Consistent(s)
    ensures mode == s.sleepMode ==> ModeSet(s, mode) == s
    ensures mode == SystemMode ==> !ModeSet(s, mode).sleepTimerArmed
    ensures mode == SystemMode && mode != s.sleepMode ==> !ModeSet(s, mode).hasSleepTimer
    ensures ModeSet(s, mode).sleepMode == mode
  {
  }

  /** Once stopped, the service panics on a second Stop and on any later
      switch to system mode; a switch that keeps the mode, or goes to program
      mode, still succeeds. */
  lemma StoppedPanics(s: State, mode: string)
    ensures StopPanics(Stopped(s)) && !Stopped(s).hasSleepTimer && !Stopped(s).lockHeld
    ensures ModeSetPanics(Stopped(s), mode) <==> mode == SystemMode && s.sleepMode != SystemMode
    ensures !s.doneClosed ==> !ModeSetPanics(s, mode) && ModeSet(s, mode).doneClosed == s.doneClosed
  {
  }

  /** In system mode no sleep timer is ever started by the service. */
  lemma SystemModeNeverSchedulesSleep(s: State)
    requires s.sleepMode == SystemMode && !s.sleepTimerArmed
    ensures !Checked(s).sleepTimerArmed
    ensures s.pendingTimedExpiries > 0 ==> !TimedExpired(s).sleepTimerArmed
  {
  }

  /** InitializeState clears the temporary wake and the timer, and holds
      the lock exactly for permanent and timed. */
  lemma InitializeEffect(s: State, strategy: string, mode: string, duration: int)
    ensures var r := Initialized(s, strategy, mode, duration);
      r.strategy == strategy && r.sleepMode == mode && r.duration == duration
      && !r.temporaryWake && !r.hasSleepTimer
      && (r.lockHeld <==> strategy == Permanent || strategy == Timed)
      && r.remainingTime == s.remainingTime
  {
  }

  /** Every transition keeps the sleep-timer bookkeeping consistent. */
  lemma TransitionsConsistent(s: State, t: string, d: int)
    requires Consistent(s)
    ensures Consistent(Checked(s)) && Consistent(Woken(s, t)) && Consistent(StrategySet(s, t, d))
    ensures Consistent(ModeSet(s, t)) && Consistent(Initialized(s, t, t, d)) && Consistent(Stopped(s))
    ensures s.pendingWakeTimeouts > 0 ==> Consistent(TimedOut(s))
    ensures s.pendingTimedExpiries > 0 ==> Consistent(TimedExpired(s))
    ensures s.pendingInitExpiries > 0 ==> Consistent(InitExpired(s))
    ensures s.sleepTimerArmed ==> Consistent(SleepTimerFired(s))
  {
    EventsConsistent(s, t);
    CommandsConsistent(s, t, d);
  }

  /** The timer and wake-event transitions. */
  lemma EventsConsistent(s: State, t: string)
    requires Consistent(s)
    ensures Consistent(Checked(s)) && Consistent(Woken(s, t))
    ensures s.pendingWakeTimeouts > 0 ==> Consistent(TimedOut(s))
    ensures s.pendingTimedExpiries > 0 ==> Consistent(TimedExpired(s))
    ensures s.pendingInitExpiries > 0 ==> Consistent(InitExpired(s))
    ensures s.sleepTimerArmed ==> Consistent(SleepTimerFired(s))
  {
  }

  /** The transitions the user and the start-up code ask for. */
  lemma CommandsConsistent(s: State, t: string, d: int)
    requires Consistent(s)
    ensures Consistent(StrategySet(s, t, d)) && Consistent(ModeSet(s, t))
    ensures Consistent(Initialized(s, t, t, d)) && Consistent(Stopped(s))
  {
  }

  // ---------------------------------------------------------------------
  // The service object

  class Service {
    var strategy: string
    var sleepMode: string
    var temporaryWake: bool
    var programSleepDelay: int
    var timeoutSecs: int
    var validEvents: seq<string>
    var hasSleepTimer: bool
    var sleepTimerArmed: bool
    var lastWakeEvent: string
    var remainingTime: int
    var duration: int
    var pendingWakeTimeouts: nat
    var pendingTimedExpiries: nat
    var pendingInitExpiries: nat
    var doneClosed: bool
    ghost var lockHeld: bool
    ghost var sleepRequests: nat

    ghost function Snapshot(): State
      reads this
    {
      State(strategy, sleepMode, temporaryWake, programSleepDelay, timeoutSecs, validEvents,
            hasSleepTimer, sleepTimerArmed, lastWakeEvent, remainingTime, duration,
            pendingWakeTimeouts, pendingTimedExpiries, pendingInitExpiries, lockHeld, sleepRequests,
            doneClosed)
    }

    ghost predicate Valid()
      reads this
    {
      Consistent(Snapshot())
    }

    /** NewService: settings from the loaded configuration, no timer, lock not held. */
    constructor (cfg: GuardConfig.Config)
      ensures Valid()
      ensures strategy == cfg.strategy && sleepMode == cfg.sleepMode
      ensures programSleepDelay == cfg.programSleepDelay && timeoutSecs == cfg.externalWake.timeoutSecs
      ensures validEvents == GuardConfig.GetValidEvents(cfg.externalWake)
      ensures !temporaryWake && !hasSleepTimer && !lockHeld && lastWakeEvent == ""
      ensures remainingTime == 0 && duration == 0
      ensures pendingWakeTimeouts == 0 && pendingTimedExpiries == 0 && pendingInitExpiries == 0
      ensures !doneClosed
    {
      var events := GuardConfig.GetValidEvents(cfg.externalWake);
      strategy := cfg.strategy;
      sleepMode := cfg.sleepMode;
      temporaryWake := false;
      programSleepDelay := cfg.programSleepDelay;
      timeoutSecs := cfg.externalWake.timeoutSecs;
      validEvents := events;
      hasSleepTimer := false;
      sleepTimerArmed := false;
      lastWakeEvent := "";
      remainingTime := 0;
      duration := 0;
      pendingWakeTimeouts := 0;
      pendingTimedExpiries := 0;
      pendingInitExpiries := 0;
      lockHeld := false;
      sleepRequests := 0;
      doneClosed := false;
    }

    method CancelSleepTimer()
      modifies this
      requires sleepTimerArmed ==> hasSleepTimer
      ensures Valid() && Snapshot() == Cancelled(old(Snapshot()))
    {
      if hasSleepTimer {
        hasSleepTimer := false;
        sleepTimerArmed := false;
      }
    }

    method StartSleepTimer()
      modifies this
      requires Valid() && sleepMode != SystemMode
      ensures Valid() && Snapshot() == TimerStarted(old(Snapshot()))
    {
      CancelSleepTimer();
      hasSleepTimer := true;
      sleepTimerArmed := true;
    }

    /** checkStatus (its logging left out). */
    method CheckStatus()
      modifies this
      requires Valid()
      ensures Valid() && Snapshot() == Checked(old(Snapshot()))
    {
      if strategy == ExternalWake && !temporaryWake && sleepMode == ProgramMode && !hasSleepTimer {
        StartSleepTimer();
      }
    }

    /** runCheckTimer: one check at once, then one per tick while the mode
        stays program; `ticks` is how many ticks arrive before done closes. */
    method RunCheckTimer(ticks: nat)
      modifies this
      requires Valid()
      ensures Valid() && Snapshot() == Checked(old(Snapshot()))
    {
      CheckStatus();
      var i := 0;
      while i < ticks
        invariant 0 <= i <= ticks
        invariant Valid() && Snapshot() == Checked(old(Snapshot()))
      {
        if sleepMode != ProgramMode {
          return;
        }
        CheckStartsTimer(old(Snapshot()));
        CheckStatus();
        i := i + 1;
      }
    }

    /** HandleWakeEvent: only an event whose type is listed wakes the machine. */
    method HandleWakeEvent(eventType: string)
      modifies this
      requires Valid()
      ensures Valid() && Snapshot() == Woken(old(Snapshot()), eventType)
    {
      var isValid := false;
      var i := 0;
      while i < |validEvents|
        invariant 0 <= i <= |validEvents|
        invariant isValid <==> eventType in validEvents[..i]
        invariant !isValid || i > 0
      {
        if eventType == validEvents[i] {
          isValid := true;
          break;
        }
        i := i + 1;
      }
      if !isValid {
        assert validEvents[..i] == validEvents;
        return;
      }
      assert eventType in validEvents by { assert validEvents[..i] <= validEvents; }
      if hasSleepTimer {
        CancelSleepTimer();
      }
      lockHeld := true;
      temporaryWake := true;
      lastWakeEvent := eventType;
      pendingWakeTimeouts := pendingWakeTimeouts + 1;
    }

    /** HandleWakePacket: a "wol" wake event. */
    method HandleWakePacket()
      modifies this
      requires Valid()
      ensures Valid() && Snapshot() == Woken(old(Snapshot()), "wol")
    {
      HandleWakeEvent("wol");
    }

    /** The external-wake timeout callback runs. */
    method FireWakeTimeout()
      modifies this
      requires Valid() && pendingWakeTimeouts > 0
      ensures Valid() && Snapshot() == TimedOut(old(Snapshot()))
    {
      pendingWakeTimeouts := pendingWakeTimeouts - 1;
      if temporaryWake {
        temporaryWake := false;
        lockHeld := false;
      }
    }

    method SetStrategy(newStrategy: string, newDuration: int)
      modifies this
      requires Valid()
      ensures Valid() && Snapshot() == StrategySet(old(Snapshot()), newStrategy, newDuration)
    {
      if newStrategy == Permanent || newStrategy == Timed {
        CancelSleepTimer();
      }
      ApplyStrategy(newStrategy, newDuration);
    }

    /** The part of SetStrategy after the sleep timer is dealt with. */
    method ApplyStrategy(newStrategy: string, newDuration: int)
      modifies this
      requires Valid()
      ensures Valid() && Snapshot() == StrategyApplied(old(Snapshot()), newStrategy, newDuration)
    {
      var timed, permanent := newStrategy == Timed, newStrategy == Permanent;
      strategy := newStrategy;
      if timed {
        remainingTime := Quot(newDuration, NanosPerSecond);
        duration := newDuration;
        lockHeld := true;
        pendingTimedExpiries := pendingTimedExpiries + 1;
      } else if permanent {
        lockHeld := true;
      } else {
        lockHeld := false;
      }
    }

    /** The expiry callback of SetStrategy(timed, d) runs. */
    method FireTimedExpiry()
      modifies this
      requires Valid() && pendingTimedExpiries > 0
      ensures Valid() && Snapshot() == TimedExpired(old(Snapshot()))
    {
      pendingTimedExpiries := pendingTimedExpiries - 1;
      lockHeld := false;
      if sleepMode == ProgramMode {
        StartSleepTimer();
      }
    }

    /** The expiry callback of InitializeState(timed, ...) runs. */
    method FireInitExpiry()
      modifies this
      requires Valid() && pendingInitExpiries > 0
      ensures Valid() && Snapshot() == InitExpired(old(Snapshot()))
    {
      pendingInitExpiries := pendingInitExpiries - 1;
      lockHeld := false;
    }

    /** The sleep timer fires and forceSystemSleep runs. */
    method FireSleepTimer()
      modifies this
      requires Valid() && sleepTimerArmed
      ensures Valid() && Snapshot() == SleepTimerFired(old(Snapshot()))
    {
      sleepTimerArmed := false;
      lockHeld := false;
      sleepRequests := sleepRequests + 1;
    }

    /** SetSleepMode: a change to system mode cancels the sleep timer and
        closes and renews the done channel, which panics after Stop; the mode
        and the cancelled timer are already in place by then. */
    method SetSleepMode(mode: string) returns (panicked: bool)
      modifies this
      requires Valid()
      ensures Valid() && Snapshot() == ModeSet(old(Snapshot()), mode)
      ensures panicked <==> ModeSetPanics(old(Snapshot()), mode)
    {
      panicked := false;
      if sleepMode == mode {
        return;
      }
      sleepMode := mode;
      if mode == SystemMode {
        CancelSleepTimer();
        if doneClosed {
          panicked := true;
          return;
        }
        // the closed channel is replaced by a fresh one: doneClosed stays false
      }
    }

    method InitializeState(newStrategy: string, mode: string, newDuration: int)
      modifies this
      requires Valid()
      ensures Valid() && Snapshot() == Initialized(old(Snapshot()), newStrategy, mode, newDuration)
    {
      strategy := newStrategy;
      sleepMode := mode;
      temporaryWake := false;
      duration := newDuration;
      CancelSleepTimer();
      TakeInitialLock(newStrategy);
    }

    /** The part of InitializeState after the timer is cancelled. */
    method TakeInitialLock(newStrategy: string)
      modifies this
      requires Valid()
      ensures Valid() && Snapshot() == InitialLock(old(Snapshot()), newStrategy)
    {
      var held, timed := newStrategy == Permanent || newStrategy == Timed, newStrategy == Timed;
      if held {
        lockHeld := true;
        if timed {
          pendingInitExpiries := pendingInitExpiries + 1;
        }
      } else {
        lockHeld := false;
      }
    }

    /** Stop closes the done channel first: a second Stop panics and
        changes nothing. */
    method Stop() returns (panicked: bool)
      modifies this
      requires Valid()
      ensures panicked <==> StopPanics(old(Snapshot()))
      ensures Valid()
      ensures panicked ==> Snapshot() == old(Snapshot())
      ensures !panicked ==> Snapshot() == Stopped(old(Snapshot()))
    {
      if doneClosed {
        return true;
      }
      doneClosed := true;
      CancelSleepTimer();
      lockHeld := false;
      return false;
    }

    /** SetProgramSleepDelay: values under 30 seconds become 30. */
    method SetProgramSleepDelay(delay: int)
      modifies this
      requires Valid()
      ensures Valid() && Snapshot() == old(Snapshot()).(programSleepDelay := AtLeastMin(delay))
    {
      var d := delay;
      if d < MinSeconds {
        d := MinSeconds;
      }
      programSleepDelay := d;
    }

    /** SetTimeoutSecs: values under 30 seconds become 30. */
    method SetTimeoutSecs(timeout: int)
      modifies this
      requires Valid()
      ensures Valid() && Snapshot() == old(Snapshot()).(timeoutSecs := AtLeastMin(timeout))
    {
      var t := timeout;
      if t < MinSeconds {
        t := MinSeconds;
      }
      timeoutSecs := t;
    }

    method SetValidEvents(events: seq<string>)
      modifies this
      requires Valid()
      ensures Valid() && Snapshot() == old(Snapshot()).(validEvents := events)
    {
      validEvents := events;
    }

    method SetDuration(d: int)
      modifies this
      requires Valid()
      ensures Valid() && Snapshot() == old(Snapshot()).(duration := d)
    {
      duration := d;
    }

    /** GetRemainingTime: the stored seconds under timed, otherwise 0. */
    function GetRemainingTime(): (r: int)
      reads this
      ensures strategy != Timed ==> r == 0
      ensures strategy == Timed ==> r == remainingTime
    {
      if strategy == Timed then remainingTime else 0
    }

    /** FormatRemainingTime: "hh:mm:ss" under timed, otherwise "00:00:00";
        the text reads back as GetRemainingTime. */
    function FormatRemainingTime(): (r: string)
      reads this
      ensures strategy != Timed ==> r == "00:00:00"
      ensures MinInt64 <= remainingTime <= MaxInt64 ==> ParseClock(r) == Some(GetRemainingTime())
    {
      if strategy == Timed then
        if MinInt64 <= remainingTime <= MaxInt64 then
          ClockRoundTrip(remainingTime);
          Clock(remainingTime)
        else Clock(remainingTime)
      else
        ClockRoundTrip(0);
        ClockZero();
        "00:00:00"
    }
  }
}
