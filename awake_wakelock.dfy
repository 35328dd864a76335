/** The awake wake-lock service: the wol_wake, permanent and timed
    strategies, the expiry of a timed wake and the remaining-time display.

    The operating-system lock is the ghost flag `lockHeld`, forced sleeps
    are counted in `sleepRequests`, and the expiry callback of the timed
    strategy runs when FireTimer is called. Times are nanoseconds; `now`
    is a reading of the monotonic clock. */
module AwakeWakeLock {
  import opened GoText

  const WolWake: string := "wol_wake"
  const Permanent: string := "permanent"
  const Timed: string := "timed"
  const SystemMode: string := "system"
  const ProgramMode: string := "program"

  const NanosPerSecond: int := 1_000_000_000

  datatype State = State(
    strategy: string,
    duration: int,
    startTime: int,
    hasTimer: bool,         // timer != nil
    hasUpdateTimer: bool,   // updateTimer != nil
    sleepMode: string,
    lockHeld: bool,
    sleepRequests: nat,
    refreshes: nat)         // display refreshes requested by the update timer

  /** What the service keeps true between calls: the lock is held exactly
      when the strategy asks for it, and only a timed wake has a timer. */
  predicate Consistent(s: State) {
    (s.hasTimer ==> s.strategy == Timed && s.lockHeld)
    && (s.strategy == WolWake ==> !s.lockHeld)
    && (s.strategy == Permanent ==> s.lockHeld)
  }

  /** NewService. */
  function Initial(): State {
    State(WolWake, 0, 0, false, false, SystemMode, false, 0, 0)
  }

  function StrategySet(s: State, strategy: string, duration: int, now: int): (r: State)
  {
    if s.strategy == strategy && strategy != Timed then s
    else
      var stopped := s.(hasTimer := false, hasUpdateTimer := false);
      if strategy == Timed && duration <= 0 then stopped
      else
        var s1 := stopped.(strategy := strategy);
        if strategy == WolWake then s1.(lockHeld := false)
        else if strategy == Permanent then s1.(lockHeld := true)
        else if strategy == Timed then
          s1.(duration := duration, startTime := now, lockHeld := true, hasTimer := true, hasUpdateTimer := true)
        else s1
  }

  /** The expiry callback of a timed wake. */
  function TimerFired(s: State): (r: State)
  {
    if s.strategy != Timed then s
    else s.(strategy := WolWake, lockHeld := false, hasTimer := false)
  }

  /** A tick of the display-update timer. */
  function UpdateTick(s: State): (r: State)
  {
    if s.strategy != Timed then s.(hasUpdateTimer := false)
    else s.(refreshes := s.refreshes + 1)
  }

  function ForcedSleep(s: State): (r: State)
  {
    var s1 := s.(hasTimer := false, lockHeld := false, strategy := WolWake);
    if s.sleepMode == SystemMode then s1.(sleepRequests := s.sleepRequests + 1) else s1
  }

  /** GetRemainingTime at time `now`. */
  function RemainingTime(s: State, now: int): (r: int)
  {
    if s.strategy != Timed || !s.hasTimer then 0
    else if now - s.startTime > s.duration then 0
    else s.duration - (now - s.startTime)
  }

  // ---------------------------------------------------------------------
  // The remaining-time text " (1h2m3s)"

  /** The hours, minutes and seconds fields of a positive duration, as
      int(d.Hours()), int(d.Minutes()) % 60 and int(d.Seconds()) % 60. */
  function HoursOf(d: int): int requires d > 0 { d / (3600 * NanosPerSecond) }
  function MinutesOf(d: int): int requires d > 0 { (d / (60 * NanosPerSecond)) % 60 }
  function SecondsOf(d: int): int requires d > 0 { (d / NanosPerSecond) % 60 }

  function Display(d: int): (r: string)
  {
    if d <= 0 then "" else DisplayOf(HoursOf(d), MinutesOf(d), SecondsOf(d))
  }

  /** The " (%dh%dm%ds)", " (%dm%ds)" or " (%ds)" text for the given fields. */
  function DisplayOf(h: int, m: int, sec: int): (r: string)
  {
    if h > 0 then " (" + (Itoa(h) + "h" + (Itoa(m) + "m" + (Itoa(sec) + "s"))) + ")"
    else if m > 0 then " (" + (Itoa(m) + "m" + (Itoa(sec) + "s")) + ")"
    else " (" + (Itoa(sec) + "s") + ")"
  }

  /** Length of the leading run of digits. */
  function DigitRun(s: string): (n: nat)
    ensures n <= |s| && AllDigits(s[..n]) && (n < |s| ==> !IsDigit(s[n]))
  {
    if s == [] || !IsDigit(s[0]) then 0 else 1 + DigitRun(s[1..])
  }

  function UnitSeconds(c: char): Option<int> {
    if c == 'h' then Some(3600) else if c == 'm' then Some(60) else if c == 's' then Some(1) else None
  }

  /** Reads "<n>h<n>m<n>s"-style text (any sequence of number-unit pairs)
      as whole seconds. */
  function ReadUnits(s: string): (r: Option<int>)
    decreases |s|
  {
    if s == [] then Some(0)
    else
      var n := DigitRun(s);
      if n == 0 || n == |s| || UnitSeconds(s[n]).None? then None
      else Combine(DigitsValue(s[..n]), UnitSeconds(s[n]).value, ReadUnits(s[n + 1..]))
  }

  /** A number in a unit added to what the rest of the text reads as. */
  function Combine(v: int, unit: int, rest: Option<int>): Option<int>
  {
    match rest
    case None => None
    case Some(x) => Some(v * unit + x)
  }

  /** Reads the display text back: "" is nothing left, " (...)" is read by ReadUnits. */
  function ReadDisplay(t: string): (r: Option<int>)
  {
    if t == "" then Some(0)
    else if |t| < 3 || t[..2] != " (" || t[|t| - 1] != ')' then None
    else ReadUnits(t[2..|t| - 1])
  }

  lemma {:induction false} ReadUnitsStep(v: nat, u: char, rest: string)
    requires UnitSeconds(u).Some?
    ensures ReadUnits(Itoa(v) + [u] + rest) ==
      Combine(v, UnitSeconds(u).value, ReadUnits(rest))
  {
    NatDigitsValue(v);
    ReadUnitsOfParts(Itoa(v), u, rest);
  }

  /** Digits, a unit letter and the rest: the digits' value in that unit
      plus what the rest reads as. */
  lemma ReadUnitsOfParts(d: string, u: char, rest: string)
    requires d != [] && AllDigits(d) && UnitSeconds(u).Some?
    ensures ReadUnits(d + [u] + rest) ==
      Combine(DigitsValue(d), UnitSeconds(u).value, ReadUnits(rest))
  {
    AppendAssoc(d, [u], rest);
    DigitRunPrefix(d, [u] + rest);
    AroundUnit(d, u, rest);
    ReadUnitsAt(d + [u] + rest, |d|);
  }

  /** ReadUnits of text whose digit run ends at a unit letter. */
  lemma ReadUnitsAt(s: string, n: int)
    requires 0 < n < |s| && DigitRun(s) == n && UnitSeconds(s[n]).Some?
    ensures ReadUnits(s) ==
      Combine(DigitsValue(s[..n]), UnitSeconds(s[n]).value, ReadUnits(s[n + 1..]))
  {
  }

  /** The pieces of digits, a unit letter and the rest. */
  lemma AroundUnit(d: string, u: char, rest: string)
    ensures var s := d + [u] + rest;
      |d| < |s| && s[|d|] == u && s[..|d|] == d && s[|d| + 1..] == rest
  {
  }

  lemma {:induction false} DigitRunPrefix(d: string, rest: string)
    requires AllDigits(d) && rest != [] && !IsDigit(rest[0])
    ensures DigitRun(d + rest) == |d|
    decreases |d|
  {
    var s := d + rest;
    if d == [] {
      assert s == rest;
    } else {
      assert s[0] == d[0] && IsDigit(d[0]);
      assert s[1..] == d[1..] + rest;
      assert AllDigits(d[1..]) by {
        forall k | 0 <= k < |d| - 1 ensures IsDigit(d[1..][k]) {
          assert d[1..][k] == d[k + 1];
        }
      }
      DigitRunPrefix(d[1..], rest);
      assert DigitRun(s) == 1 + DigitRun(s[1..]);
    }
  }

  lemma ReadDisplayWrap(inner: string)
    ensures ReadDisplay(" (" + inner + ")") == ReadUnits(inner)
  {
    var t := " (" + inner + ")";
    assert t[..2] == " (" && t[|t| - 1] == ')';
    assert t[2..|t| - 1] == inner;
  }

  /** A number, a unit letter and a text that reads as x. */
  lemma ReadUnitsCons(v: nat, letter: string, unit: int, rest: string, x: int)
    requires |letter| == 1 && UnitSeconds(letter[0]) == Some(unit) && ReadUnits(rest) == Some(x)
    ensures ReadUnits(Itoa(v) + letter + rest) == Some(v * unit + x)
  {
    assert letter == [letter[0]];
    ReadUnitsStep(v, letter[0], rest);
  }

  lemma ReadS(sec: nat)
    ensures ReadUnits(Itoa(sec) + "s") == Some(sec)
  {
    ReadUnitsCons(sec, "s", 1, "", 0);
    assert Itoa(sec) + "s" + "" == Itoa(sec) + "s";
  }

  lemma ReadMs(m: nat, sec: nat)
    ensures ReadUnits(Itoa(m) + "m" + (Itoa(sec) + "s")) == Some(m * 60 + sec)
  {
    ReadS(sec);
    ReadUnitsCons(m, "m", 60, Itoa(sec) + "s", sec);
  }

  lemma ReadHms(h: nat, m: nat, sec: nat)
    ensures ReadUnits(Itoa(h) + "h" + (Itoa(m) + "m" + (Itoa(sec) + "s"))) == Some(h * 3600 + m * 60 + sec)
  {
    ReadMs(m, sec);
    ReadUnitsCons(h, "h", 3600, Itoa(m) + "m" + (Itoa(sec) + "s"), m * 60 + sec);
  }

  /** Text built from non-negative fields reads back as their total in seconds. */
  lemma ReadDisplayOf(h: nat, m: nat, sec: nat)
    ensures ReadDisplay(DisplayOf(h, m, sec)) == Some(h * 3600 + m * 60 + sec)
  {
    var t := DisplayOf(h, m, sec);
    if h > 0 {
      var inner := Itoa(h) + "h" + (Itoa(m) + "m" + (Itoa(sec) + "s"));
      assert t == " (" + inner + ")";
      ReadDisplayWrap(inner);
      ReadHms(h, m, sec);
      assert ReadDisplay(t) == Some(h * 3600 + m * 60 + sec);
    } else if m > 0 {
      var inner := Itoa(m) + "m" + (Itoa(sec) + "s");
      assert t == " (" + inner + ")";
      ReadDisplayWrap(inner);
      ReadMs(m, sec);
      assert ReadDisplay(t) == Some(m * 60 + sec);
    } else {
      var inner := Itoa(sec) + "s";
      assert t == " (" + inner + ")";
      ReadDisplayWrap(inner);
      ReadS(sec);
      assert ReadDisplay(t) == Some(sec);
    }
  }

  /** The display text reads back as the whole seconds left. */
  lemma DisplayRoundTrip(d: int)
    requires d >= 0
    ensures ReadDisplay(Display(d)) == Some(d / NanosPerSecond)
  {
    if d > 0 {
      DisplayFields(d);
      ReadDisplayOf(HoursOf(d), MinutesOf(d), SecondsOf(d));
    }
  }

  /** The fields add up to the whole seconds, minutes and seconds stay below 60. */
  lemma DisplayFields(d: int)
    requires d > 0
    ensures HoursOf(d) * 3600 + MinutesOf(d) * 60 + SecondsOf(d) == d / NanosPerSecond
    ensures 0 <= MinutesOf(d) < 60 && 0 <= SecondsOf(d) < 60 && HoursOf(d) >= 0
  {
    var secs := d / NanosPerSecond;
    assert d / (60 * NanosPerSecond) == secs / 60 by { DivDiv(d, NanosPerSecond, 60); }
    assert d / (3600 * NanosPerSecond) == secs / 3600 by { DivDiv(d, NanosPerSecond, 3600); }
    assert secs / 3600 == (secs / 60) / 60 by { DivDiv(secs, 60, 60); }
  }

  /** Division by m is determined by any quotient-remainder decomposition. */
  lemma DivUnique(a: nat, m: nat, q: nat, r: nat)
    requires m > 0 && a == m * q + r && r < m
    ensures a / m == q
  {
    var q0, r0 := a / m, a % m;
    assert m * q0 + r0 == m * q + r;
    if q0 > q {
      assert m * q0 >= m * (q + 1) by { MulMono(m, q + 1, q0); }
    } else if q0 < q {
      assert m * q >= m * (q0 + 1) by { MulMono(m, q0 + 1, q); }
    }
  }

  lemma MulMono(m: nat, x: nat, y: nat)
    requires x <= y
    ensures m * x <= m * y
  {
  }

  lemma DivDiv(a: nat, b: nat, c: nat)
    requires b > 0 && c > 0
    ensures a / (b * c) == (a / b) / c
  {
    var q := (a / b) / c;
    var r1 := a % b;
    var r2 := (a / b) % c;
    Recompose(a, b, c, a / b, q, r1, r2);
    RemainderBound(b, c, r1, r2);
    DivUnique(a, b * c, q, b * r2 + r1);
  }

  lemma Recompose(a: nat, b: nat, c: nat, p: nat, q: nat, r1: nat, r2: nat)
    requires p == c * q + r2 && a == b * p + r1
    ensures a == (b * c) * q + (b * r2 + r1)
  {
    assert b * (c * q + r2) == (b * c) * q + b * r2;
  }

  lemma RemainderBound(b: nat, c: nat, r1: nat, r2: nat)
    requires r1 < b && r2 < c
    ensures b * r2 + r1 < b * c
  {
    MulMono(b, r2, c - 1);
    assert b * (c - 1) == b * c - b;
  }

  // ---------------------------------------------------------------------
  // Properties

  /** Choosing the current strategy again does nothing unless it is timed. */
  lemma SameStrategyNoOp(s: State, duration: int, now: int)
    requires s.strategy != Timed
    ensures StrategySet(s, s.strategy, duration, now) == s
  {
  }

  /** A timed wake of no positive length keeps the previous strategy, but
      the running timers have already been stopped. */
  lemma NonPositiveTimedKeepsStrategy(s: State, duration: int, now: int)
    requires duration <= 0
    ensures StrategySet(s, Timed, duration, now) == s.(hasTimer := false, hasUpdateTimer := false)
  {
  }

  /** After SetStrategy the lock matches the strategy chosen, and a timed
      wake records its duration and start. */
  lemma SetStrategyLock(s: State, strategy: string, duration: int, now: int)
    requires Consistent(s)
    ensures var r := StrategySet(s, strategy, duration, now);
      Consistent(r)
      && (strategy == WolWake ==> r.strategy == WolWake && !r.lockHeld)
      && (strategy == Permanent ==> r.strategy == Permanent && r.lockHeld)
      && (strategy == Timed && duration > 0 ==>
            r.strategy == Timed && r.lockHeld && r.hasTimer && r.duration == duration && r.startTime == now)
  {
  }

  /** Expiry ends a timed wake; if the strategy has changed meanwhile it does nothing. */
  lemma TimerExpiry(s: State)
    requires Consistent(s)
    ensures Consistent(TimerFired(s))
    ensures s.strategy == Timed ==> TimerFired(s).strategy == WolWake && !TimerFired(s).lockHeld
                                    && !TimerFired(s).hasTimer
    ensures s.strategy != Timed ==> TimerFired(s) == s
  {
  }

  /** ForceSystemSleep ends any wake whatever the sleep mode; only system
      mode asks the operating system to sleep. */
  lemma ForceSystemSleepEffect(s: State)
    ensures var r := ForcedSleep(s);
      Consistent(r) && !r.hasTimer && !r.lockHeld && r.strategy == WolWake
      && (r.sleepRequests == s.sleepRequests + 1 <==> s.sleepMode == SystemMode)
  {
  }

  /** The remaining time is 0 without a running timed wake, and otherwise
      what is left of the duration, never more than the duration on a
      clock that does not run backwards. */
  lemma RemainingBounds(s: State, now: int)
    ensures s.strategy != Timed || !s.hasTimer ==> RemainingTime(s, now) == 0
    ensures RemainingTime(s, now) >= 0
    ensures now >= s.startTime && s.duration >= 0 ==> RemainingTime(s, now) <= s.duration
    ensures s.strategy == Timed && s.hasTimer && now - s.startTime <= s.duration ==>
      RemainingTime(s, now) + (now - s.startTime) == s.duration
  {
  }

  /** The display is empty when nothing is left, leaves out a zero hour
      field, and leaves out minutes as well when both are zero. */
  lemma DisplayShape(d: int)
    ensures d <= 0 <==> Display(d) == ""
    ensures d > 0 && HoursOf(d) == 0 ==> 'h' !in Display(d)
    ensures d > 0 && HoursOf(d) == 0 && MinutesOf(d) == 0 ==> 'h' !in Display(d) && 'm' !in Display(d)
  {
    if d > 0 {
      NoLetters(SecondsOf(d));
      NoLetters(MinutesOf(d));
    }
  }

  lemma NoLetters(n: nat)
    ensures 'h' !in Itoa(n) && 'm' !in Itoa(n)
  {
    var t := Itoa(n);
    assert forall i :: 0 <= i < |t| ==> IsDigit(t[i]);
  }

  // ---------------------------------------------------------------------
  // The service object

  class Service {
    var strategy: string
    var duration: int
    var startTime: int
    var hasTimer: bool
    var hasUpdateTimer: bool
    var sleepMode: string
    ghost var lockHeld: bool
    ghost var sleepRequests: nat
    var refreshes: nat

    ghost function Snapshot(): State
      reads this
    {
      State(strategy, duration, startTime, hasTimer, hasUpdateTimer, sleepMode, lockHeld, sleepRequests, refreshes)
    }

    ghost predicate Valid()
      reads this
    {
      Consistent(Snapshot())
    }

    /** NewService: wol_wake under system sleep mode, lock not held. */
    constructor ()
      ensures Valid() && Snapshot() == Initial()
    {
      strategy := WolWake;
      duration := 0;
      startTime := 0;
      hasTimer := false;
      hasUpdateTimer := false;
      sleepMode := SystemMode;
      lockHeld := false;
      sleepRequests := 0;
      refreshes := 0;
    }

    method SetStrategy(newStrategy: string, newDuration: int, now: int)
      modifies this
      requires Valid()
      ensures Valid() && Snapshot() == StrategySet(old(Snapshot()), newStrategy, newDuration, now)
    {
      if strategy == newStrategy && newStrategy != Timed {
        return;
      }
      hasTimer := false;
      hasUpdateTimer := false;
      var oldStrategy := strategy;
      strategy := newStrategy;
      if newStrategy == Timed {
        if newDuration <= 0 {
          strategy := oldStrategy;
          return;
        }
        duration := newDuration;
        startTime := now;
      }
      if newStrategy == WolWake {
        lockHeld := false;
      } else if newStrategy == Permanent {
        lockHeld := true;
      } else if newStrategy == Timed {
        lockHeld := true;
        hasTimer := true;
        hasUpdateTimer := true;
      }
    }

    /** The timed wake's expiry callback runs (possibly after the strategy changed). */
    method FireTimer()
      modifies this
      requires Valid()
      ensures Valid() && Snapshot() == TimerFired(old(Snapshot()))
    {
      if strategy != Timed {
        return;
      }
      strategy := WolWake;
      lockHeld := false;
      hasTimer := false;
    }

    /** A tick of the display-update timer. */
    method FireUpdateTimer()
      modifies this
      requires Valid() && hasUpdateTimer
      ensures Valid() && Snapshot() == UpdateTick(old(Snapshot()))
    {
      if strategy != Timed {
        hasUpdateTimer := false;
        return;
      }
      refreshes := refreshes + 1;
    }

    method SetSleepMode(mode: string)
      modifies this
      requires Valid()
      ensures Valid() && Snapshot() == old(Snapshot()).(sleepMode := mode)
    {
      sleepMode := mode;
    }

    /** ForceSystemSleep; `forceSleepErr` is what the operating system's
        sleep call reports. */
    method ForceSystemSleep(forceSleepErr: Option<string>) returns (err: Option<string>)
      modifies this
      requires Valid()
      ensures Valid() && Snapshot() == ForcedSleep(old(Snapshot()))
      ensures err == if old(sleepMode) == SystemMode then forceSleepErr else None
    {
      hasTimer := false;
      lockHeld := false;
      strategy := WolWake;
      if sleepMode == SystemMode {
        sleepRequests := sleepRequests + 1;
        return forceSleepErr;
      } else {
        lockHeld := false;
        return None;
      }
    }

    function GetRemainingTime(now: int): (r: int)
      reads this
      ensures r == RemainingTime(Snapshot(), now)
      ensures now >= startTime && duration >= 0 ==> 0 <= r <= duration
    {
      if strategy != Timed || !hasTimer then 0
      else if now - startTime > duration then 0
      else duration - (now - startTime)
    }

    /** FormatRemainingTime: the text reads back as the whole seconds left. */
    function FormatRemainingTime(now: int): (r: string)
      reads this
      ensures r == "" <==> GetRemainingTime(now) <= 0
      ensures GetRemainingTime(now) >= 0 ==> ReadDisplay(r) == Some(GetRemainingTime(now) / NanosPerSecond)
    {
      var d := GetRemainingTime(now);
      DisplayShape(d);
      if d >= 0 then DisplayRoundTrip(d); Display(d) else Display(d)
    }
  }
}
