/** The linux power-assertion provider: the inhibitors `systemd-inhibit
    --list` reports, the active login session `loginctl show-session`
    reports, and the desktop settings that disable idle sleep or display
    power management. Each command's output is an input (`None` when the
    command failed); reading /proc/<pid>/cmdline is the function `cmdline`. */
module LinuxInhibitors {
  import opened GoText
  import opened PowerTypes

  // ---------------------------------------------------------------------
  // systemd-inhibit

  /** The record type for the WHAT column. */
  function InhibitorType(what: string): (r: string)
  {
    if what == "sleep" then PreventSystemSleep
    else if what == "idle" then PreventUserIdleSystemSleep
    else if what == "handle-power-key" || what == "handle-suspend-key" || what == "handle-hibernate-key" then PreventSystemSleep
    else if what == "handle-lid-switch" then PreventDisplaySleep
    else PreventUserIdleSystemSleep
  }

  /** Sleep and the power, suspend and hibernate keys block system sleep,
      the lid switch blocks display sleep, and everything else (idle
      included) blocks idle sleep. */
  lemma InhibitorTypeCases(what: string)
    ensures InhibitorType(what) == PreventSystemSleep
            <==> what in {"sleep", "handle-power-key", "handle-suspend-key", "handle-hibernate-key"}
    ensures InhibitorType(what) == PreventDisplaySleep <==> what == "handle-lid-switch"
    ensures InhibitorType(what) == PreventUserIdleSystemSleep
            <==> what !in {"sleep", "handle-power-key", "handle-suspend-key", "handle-hibernate-key", "handle-lid-switch"}
  {
  }

  /** The record for one trimmed line of the listing, or None when the line
      is skipped: blank, the WHO header, fewer than seven columns, or a PID
      column that is not an integer. */
  function InhibitorRecord(line: string, cmdline: int -> Option<string>): (r: Option<Process>)
  {
    if line == "" || HasPrefix(line, "WHO") then None
    else
      var fields := Fields(line);
      if |fields| < 7 then None
      else
        match Atoi(fields[2])
        case None => None
        case Some(pid) =>
          var details := if cmdline(pid).Some? then line + " | " + cmdline(pid).value else line;
          Some(Process(pid, fields[3], Join(fields[6..], " "), InhibitorType(fields[4]), details, ""))
  }

  /** Which lines give a record, and what the record holds: the PID, the
      COMM column as name (one word), the fields from the seventh on joined
      by single blanks as reason (what the source calls `why`), the mapped
      type, and the line itself as details, followed by the command line
      when it could be read. */
  lemma InhibitorRecordFields(line: string, cmdline: int -> Option<string>)
    ensures var fields := Fields(line);
      InhibitorRecord(line, cmdline).Some? <==> (line != "" && !HasPrefix(line, "WHO") && |fields| >= 7 && Atoi(fields[2]).Some?)
    ensures var fields := Fields(line);
      InhibitorRecord(line, cmdline).Some? ==>
        var p := InhibitorRecord(line, cmdline).value;
        p.pid == Atoi(fields[2]).value && p.name == fields[3] && p.name != "" && NoSpace(p.name)
        && p.kind == InhibitorType(fields[4]) && Normalized(p.reason)
        && HasPrefix(p.details, line)
        && (p.details == line <==> cmdline(p.pid).None?)
  {
    var fields := Fields(line);
    if InhibitorRecord(line, cmdline).Some? {
      var p := InhibitorRecord(line, cmdline).value;
      JoinWordsNormalized(fields[6..]);
      assert p.details[..|line|] == line;
      if cmdline(p.pid).Some? {
        assert |p.details| > |line|;
      }
    }
  }

  /** Under the column header WHO UID PID COMM WHAT WHY MODE the sixth
      field is the first word of WHY and the last one is MODE, so the reason
      taken from the seventh field on leaves out that word and ends with the
      mode: on a line of exactly seven fields (a one-word WHY) the reason is
      the MODE column alone, as written. */
  lemma ReasonOfSevenFields(line: string, cmdline: int -> Option<string>)
    requires line != "" && !HasPrefix(line, "WHO") && |Fields(line)| == 7 && Atoi(Fields(line)[2]).Some?
    ensures InhibitorRecord(line, cmdline).Some?
    ensures InhibitorRecord(line, cmdline).value.reason == Fields(line)[6]
  {
    var fields := Fields(line);
    assert fields[6..] == [fields[6]];
  }

  /** The record that InhibitorRecord builds from a line it keeps. */
  lemma InhibitorRecordOf(line: string, cmdline: int -> Option<string>, pid: int, details: string)
    requires line != "" && !HasPrefix(line, "WHO") && |Fields(line)| >= 7 && Atoi(Fields(line)[2]) == Some(pid)
    requires details == if cmdline(pid).Some? then line + " | " + cmdline(pid).value else line
    ensures InhibitorRecord(line, cmdline)
      == Some(Process(pid, Fields(line)[3], Join(Fields(line)[6..], " "), InhibitorType(Fields(line)[4]), details, ""))
  {
  }

  /** The records of a listing, one per line that `rec` keeps, in order;
      `rec` reads one trimmed line. */
  function Kept(lines: seq<string>, cmdline: int -> Option<string>,
                rec: (string, int -> Option<string>) -> Option<Process>): (r: seq<Process>)
  {
    if lines == [] then []
    else
      var rest := Kept(lines[..|lines| - 1], cmdline, rec);
      match rec(TrimSpace(lines[|lines| - 1]), cmdline)
      case None => rest
      case Some(p) => rest + [p]
  }

  lemma KeptStep(lines: seq<string>, i: nat, cmdline: int -> Option<string>,
                 rec: (string, int -> Option<string>) -> Option<Process>)
    requires i < |lines|
    ensures Kept(lines[..i + 1], cmdline, rec)
      == match rec(TrimSpace(lines[i]), cmdline)
         case None => Kept(lines[..i], cmdline, rec)
         case Some(p) => Kept(lines[..i], cmdline, rec) + [p]
  {
    assert lines[..i + 1][..i] == lines[..i];
  }

  /** The records of a `systemd-inhibit --list` listing. */
  function SystemdRecords(lines: seq<string>, cmdline: int -> Option<string>): (r: seq<Process>)
  {
    Kept(lines, cmdline, InhibitorRecord)
  }

  /** Records follow the lines: the records of two consecutive runs of
      lines are the records of the first run followed by those of the
      second. */
  lemma {:induction false} KeptAppend(a: seq<string>, b: seq<string>, cmdline: int -> Option<string>,
                                      rec: (string, int -> Option<string>) -> Option<Process>)
    ensures Kept(a + b, cmdline, rec) == Kept(a, cmdline, rec) + Kept(b, cmdline, rec)
  {
    if b == [] {
      NilAppend(a);
      NilAppend(Kept(a, cmdline, rec));
    } else {
      var b' := b[..|b| - 1];
      var last := b[|b| - 1];
      KeptAppend(a, b', cmdline, rec);
      KeptAppendStep(a, b', last, cmdline, rec);
      FrontLast(b);
    }
  }

  /** The inductive step of KeptAppend: one more line at the end of b. */
  lemma KeptAppendStep(a: seq<string>, b: seq<string>, last: string, cmdline: int -> Option<string>,
                       rec: (string, int -> Option<string>) -> Option<Process>)
    requires Kept(a + b, cmdline, rec) == Kept(a, cmdline, rec) + Kept(b, cmdline, rec)
    ensures Kept(a + (b + [last]), cmdline, rec) == Kept(a, cmdline, rec) + Kept(b + [last], cmdline, rec)
  {
    AppendAssoc(a, b, [last]);
    KeptSnoc(a + b, last, cmdline, rec);
    KeptSnoc(b, last, cmdline, rec);
    var ka, kb, step := Kept(a, cmdline, rec), Kept(b, cmdline, rec), LineRecords(last, cmdline, rec);
    AppendAssoc(ka, kb, step);
  }

  /** The records one line contributes. */
  function LineRecords(line: string, cmdline: int -> Option<string>,
                       rec: (string, int -> Option<string>) -> Option<Process>): seq<Process>
  {
    match rec(TrimSpace(line), cmdline)
    case None => []
    case Some(p) => [p]
  }

  /** One more line adds its own records at the end. */
  lemma KeptSnoc(xs: seq<string>, x: string, cmdline: int -> Option<string>,
                 rec: (string, int -> Option<string>) -> Option<Process>)
    ensures Kept(xs + [x], cmdline, rec) == Kept(xs, cmdline, rec) + LineRecords(x, cmdline, rec)
  {
    var ys := xs + [x];
    assert ys[..|ys| - 1] == xs;
    assert ys[|ys| - 1] == x;
  }

  lemma SystemdRecordsAppend(a: seq<string>, b: seq<string>, cmdline: int -> Option<string>)
    ensures SystemdRecords(a + b, cmdline) == SystemdRecords(a, cmdline) + SystemdRecords(b, cmdline)
  {
    KeptAppend(a, b, cmdline, InhibitorRecord);
  }

  /** A record as the listing can produce it: a one-word name and one of
      the three types. */
  predicate WellFormed(p: Process) {
    p.name != "" && NoSpace(p.name) && p.kind in {PreventSystemSleep, PreventDisplaySleep, PreventUserIdleSystemSleep}
  }

  lemma {:induction false} KeptWellFormed(lines: seq<string>, cmdline: int -> Option<string>,
                                          rec: (string, int -> Option<string>) -> Option<Process>)
    requires forall l :: rec(l, cmdline).Some? ==> WellFormed(rec(l, cmdline).value)
    ensures |Kept(lines, cmdline, rec)| <= |lines|
    ensures forall p :: p in Kept(lines, cmdline, rec) ==> WellFormed(p)
  {
    if lines != [] {
      var init := lines[..|lines| - 1];
      KeptWellFormed(init, cmdline, rec);
      var r := rec(TrimSpace(lines[|lines| - 1]), cmdline);
      if r.Some? {
        assert WellFormed(r.value);
        assert Kept(lines, cmdline, rec) == Kept(init, cmdline, rec) + [r.value];
      } else {
        assert Kept(lines, cmdline, rec) == Kept(init, cmdline, rec);
      }
    }
  }

  /** Every record has a one-word name and one of the three types; there
      are never more records than lines. */
  lemma SystemdRecordsWellFormed(lines: seq<string>, cmdline: int -> Option<string>)
    ensures |SystemdRecords(lines, cmdline)| <= |lines|
    ensures forall p :: p in SystemdRecords(lines, cmdline) ==> WellFormed(p)
  {
    forall l | InhibitorRecord(l, cmdline).Some?
      ensures WellFormed(InhibitorRecord(l, cmdline).value)
    {
      InhibitorRecordFields(l, cmdline);
      InhibitorTypeCases(Fields(l)[4]);
    }
    KeptWellFormed(lines, cmdline, InhibitorRecord);
  }

  /** The record kept as this program's: the last one whose PID is ours,
      else what was kept before. */
  function SelfRecord(ps: seq<Process>, selfPid: int, current: Option<Process>): (r: Option<Process>)
  {
    if ps == [] then current
    else if ps[|ps| - 1].pid == selfPid then Some(ps[|ps| - 1])
    else SelfRecord(ps[..|ps| - 1], selfPid, current)
  }

  /** The kept record is the previous one when no record has our PID, and
      otherwise the last record with our PID. */
  lemma SelfRecordIsLast(ps: seq<Process>, selfPid: int, current: Option<Process>)
    ensures (forall k :: 0 <= k < |ps| ==> ps[k].pid != selfPid) ==> SelfRecord(ps, selfPid, current) == current
    ensures (exists k :: 0 <= k < |ps| && ps[k].pid == selfPid) ==>
      exists k :: 0 <= k < |ps| && SelfRecord(ps, selfPid, current) == Some(ps[k]) && ps[k].pid == selfPid
        && forall j :: k < j < |ps| ==> ps[j].pid != selfPid
  {
    if forall k :: 0 <= k < |ps| ==> ps[k].pid != selfPid {
      SelfRecordNone(ps, selfPid, current);
    } else {
      var k0 :| 0 <= k0 < |ps| && ps[k0].pid == selfPid;
      var k := SelfRecordLast(ps, selfPid, current, k0);
    }
  }

  lemma {:induction false} SelfRecordNone(ps: seq<Process>, selfPid: int, current: Option<Process>)
    requires forall k :: 0 <= k < |ps| ==> ps[k].pid != selfPid
    ensures SelfRecord(ps, selfPid, current) == current
  {
    if ps != [] {
      var init := ps[..|ps| - 1];
      forall k | 0 <= k < |init| ensures init[k].pid != selfPid {
        assert init[k] == ps[k];
      }
      SelfRecordNone(init, selfPid, current);
    }
  }

  /** With a record of our PID at k0, the kept record is the one at the
      returned index, the last with our PID. */
  lemma {:induction false} SelfRecordLast(ps: seq<Process>, selfPid: int, current: Option<Process>, k0: int) returns (k: int)
    requires 0 <= k0 < |ps| && ps[k0].pid == selfPid
    ensures 0 <= k < |ps| && SelfRecord(ps, selfPid, current) == Some(ps[k]) && ps[k].pid == selfPid
    ensures forall j :: k < j < |ps| ==> ps[j].pid != selfPid
  {
    var n := |ps| - 1;
    if ps[n].pid == selfPid {
      k := n;
    } else {
      var init := ps[..n];
      assert init[k0] == ps[k0];
      k := SelfRecordLast(init, selfPid, current, k0);
      assert ps[k] == init[k];
      forall j | k < j < |ps| ensures ps[j].pid != selfPid {
        if j < n {
          assert ps[j] == init[j];
        }
      }
    }
  }

  // ---------------------------------------------------------------------
  // loginctl show-session

  const IdleHintNo: string := "IdleHint=no"

  /** The record for an active session, its details the text read so far. */
  function SessionRecord(details: string): (r: Process)
  {
    Process(0, "Login Session", "用户会话活动", PreventUserIdleSystemSleep, details, "")
  }

  /** Each line followed by " | ", as the details builder holds it. */
  function Prefix(ls: seq<string>): (r: string)
  {
    if ls == [] then "" else Prefix(ls[..|ls| - 1]) + ls[|ls| - 1] + " | "
  }

  /** Index of the first line holding IdleHint=no, or |lines|. */
  function FirstIdle(lines: seq<string>): (k: nat)
  {
    if lines == [] then 0
    else if Index(lines[0], IdleHintNo) >= 0 then 0
    else 1 + FirstIdle(lines[1..])
  }

  /** FirstIdle finds the first such line. */
  lemma {:induction false} FirstIdleIsFirst(lines: seq<string>)
    ensures FirstIdle(lines) <= |lines|
    ensures forall j :: 0 <= j < FirstIdle(lines) ==> Index(lines[j], IdleHintNo) < 0
    ensures FirstIdle(lines) < |lines| ==> Index(lines[FirstIdle(lines)], IdleHintNo) >= 0
  {
    if lines != [] && Index(lines[0], IdleHintNo) < 0 {
      var tail := lines[1..];
      FirstIdleIsFirst(tail);
      var k := FirstIdle(tail);
      assert FirstIdle(lines) == 1 + k;
      forall j | 0 <= j < 1 + k
        ensures Index(lines[j], IdleHintNo) < 0
      {
        if j > 0 {
          assert lines[j] == tail[j - 1];
        }
      }
      if k < |tail| {
        assert lines[1 + k] == tail[k];
      }
    }
  }

  /** What the session scan yields: one record at the first IdleHint=no
      line, carrying every earlier line and that line, or none. */
  lemma PrefixSnoc(lines: seq<string>, i: int)
    requires 0 <= i < |lines|
    ensures Prefix(lines[..i + 1]) == Prefix(lines[..i]) + lines[i] + " | "
  {
    assert lines[..i + 1][..i] == lines[..i];
  }

  /** The first line holding IdleHint=no is at i (|lines| when none is). */
  lemma FirstIdleAt(lines: seq<string>, i: int)
    requires 0 <= i <= |lines| && forall j :: 0 <= j < i ==> Index(lines[j], IdleHintNo) < 0
    requires i < |lines| ==> Index(lines[i], IdleHintNo) >= 0
    ensures FirstIdle(lines) == i
  {
    FirstIdleIsFirst(lines);
  }

  function LoginSession(lines: seq<string>): (r: seq<Process>)
  {
    var k := FirstIdle(lines);
    if k < |lines| then [SessionRecord(Prefix(lines[..k]) + lines[k])] else []
  }

  /** At most one record, and one exactly when some line mentions
      IdleHint=no; its details end with that line. */
  lemma LoginSessionCases(lines: seq<string>)
    ensures |LoginSession(lines)| <= 1
    ensures LoginSession(lines) != [] <==> exists j :: 0 <= j < |lines| && Contains(lines[j], IdleHintNo)
    ensures LoginSession(lines) != [] ==>
      var p := LoginSession(lines)[0];
      p.kind == PreventUserIdleSystemSleep && Contains(p.details, IdleHintNo)
  {
    FirstIdleIsFirst(lines);
    var k := FirstIdle(lines);
    if k < |lines| {
      ContainsAfter(Prefix(lines[..k]), lines[k], IdleHintNo);
    }
  }

  // ---------------------------------------------------------------------
  // Desktop settings

  const GnomeDetails: string := "GNOME Session settings: idle-delay=0"
  const DpmsDisabled: string := "DPMS is Disabled"

  /** The GNOME record, from the output of `gsettings get
      org.gnome.desktop.session idle-delay`. */
  function GnomeRecords(gsettings: Option<string>): (r: seq<Process>)
  {
    if gsettings.Some? && TrimSpace(gsettings.value) == "uint32 0"
    then [Process(0, "GNOME Session", "用户禁用了空闲休眠", PreventUserIdleSystemSleep, GnomeDetails, "")]
    else []
  }

  /** The DPMS record, from the output of `xset q`; the details builder was
      emptied after the GNOME check, so it holds the xset report alone. */
  function DpmsRecords(xset: Option<string>): (r: seq<Process>)
  {
    if xset.Some? && Index(xset.value, DpmsDisabled) >= 0
    then [Process(0, "X11 DPMS", "显示器电源管理已禁用", PreventDisplaySleep, xset.value, "")]
    else []
  }

  /** getDesktopInhibitors. */
  function DesktopRecords(gsettings: Option<string>, xset: Option<string>): (r: seq<Process>)
  {
    GnomeRecords(gsettings) + DpmsRecords(xset)
  }

  /** A GNOME record exactly when the idle delay reads zero once trimmed,
      blocking idle sleep. */
  lemma GnomeRecordsCases(gsettings: Option<string>)
    ensures |GnomeRecords(gsettings)| <= 1
    ensures GnomeRecords(gsettings) != [] <==> gsettings.Some? && TrimSpace(gsettings.value) == "uint32 0"
    ensures GnomeRecords(gsettings) != [] ==> GnomeRecords(gsettings)[0].kind == PreventUserIdleSystemSleep
  {
  }

  /** An X11 record exactly when the report says DPMS is disabled; it
      blocks display sleep and carries the whole report. */
  lemma DpmsRecordsCases(xset: Option<string>)
    ensures |DpmsRecords(xset)| <= 1
    ensures DpmsRecords(xset) != [] <==> xset.Some? && Contains(xset.value, DpmsDisabled)
    ensures DpmsRecords(xset) != [] ==>
      DpmsRecords(xset)[0].kind == PreventDisplaySleep && DpmsRecords(xset)[0].details == xset.value
  {
  }

  // ---------------------------------------------------------------------
  // Descriptions

  /** GetProcessDetailInfo on linux: line breaks become " | " before the
      white space is collapsed. */
  function ProcessDetailInfo(p: Process): (r: string)
  {
    DetailInfo(p, "\n", " | ")
  }

  /** Other records show the words of their lines joined by " | ", in
      order, with single blanks between words and no line break. */
  lemma ProcessDetailInfoCases(p: Process)
    ensures p.name == CurrentProcessName ==> ProcessDetailInfo(p) == p.details
    ensures p.name != CurrentProcessName && p.details != "" ==>
      Normalized(ProcessDetailInfo(p)) && '\n' !in ProcessDetailInfo(p)
      && Fields(ProcessDetailInfo(p)) == Fields(Join(Split(p.details, '\n'), " | "))
    ensures p.name != CurrentProcessName && p.details == "" ==>
      ProcessDetailInfo(p) == if p.reason != "" then p.reason else NoDetails
  {
    DetailInfoCases(p, "\n", " | ");
    ReplaceAllSplit(p.details, '\n', " | ");
    if p.name != CurrentProcessName && p.details != "" {
      var r := ProcessDetailInfo(p);
      assert forall k | 0 <= k < |r| :: IsSpace(r[k]) ==> r[k] == ' ';
    }
  }

  // ---------------------------------------------------------------------
  // The provider

  class Provider {
    var currentProcess: Option<Process>

    constructor ()
      ensures currentProcess.None?
    {
      currentProcess := None;
    }

    /** GetProcessDescription. */
    function GetProcessDescription(p: Process): (r: string)
    {
      TypeDescription(p.kind)
    }

    /** getSystemdInhibitors over the listing (`None` when the command
        failed). The details builder is emptied after every record, so each
        record's details start with its own line. */
    method GetSystemdInhibitors(output: Option<string>, selfPid: int, cmdline: int -> Option<string>)
      returns (r: Result<seq<Process>>)
      modifies this
      ensures output.None? ==> r.Err? && currentProcess == old(currentProcess)
      ensures output.Some? ==>
        var ps := SystemdRecords(Split(output.value, '\n'), cmdline);
        r == Ok(ps) && currentProcess == SelfRecord(ps, selfPid, old(currentProcess))
    {
      if output.None? {
        return Err("systemd-inhibit failed");
      }
      var lines := Split(output.value, '\n');
      var processes: seq<Process> := [];
      var originalInfo := "";
      for i := 0 to |lines|
        invariant processes == Kept(lines[..i], cmdline, InhibitorRecord)
        invariant currentProcess == SelfRecord(processes, selfPid, old(currentProcess))
        invariant originalInfo == ""
      {
        var line := TrimSpace(lines[i]);
        KeptStep(lines, i, cmdline, InhibitorRecord);
        InhibitorRecordFields(line, cmdline);
        if line == "" || HasPrefix(line, "WHO") {
          continue;
        }
        var fields := Fields(line);
        if |fields| < 7 {
          continue;
        }
        var pid := Atoi(fields[2]);
        if pid.None? {
          continue;
        }
        var what := fields[4];
        var why := Join(fields[6..], " ");
        var processType := InhibitorType(what);
        NilAppend(line);
        originalInfo := originalInfo + line;
        var process := Process(pid.value, fields[3], why, processType, originalInfo, "");
        var cmd := cmdline(pid.value);
        if cmd.Some? {
          process := process.(details := process.details + " | " + cmd.value);
        }
        InhibitorRecordOf(line, cmdline, pid.value, process.details);
        processes := processes + [process];
        if pid.value == selfPid {
          currentProcess := Some(process);
        }
        originalInfo := "";
      }
      assert lines[..|lines|] == lines;
      return Ok(processes);
    }

    /** getLoginSessionInhibitors over the session listing (`None` when the
        command failed): the lines are gathered into the details until the
        first one that reports the session as not idle. */
    method GetLoginSessionInhibitors(output: Option<string>) returns (r: Result<seq<Process>>)
      ensures output.None? ==> r.Err?
      ensures output.Some? ==> r == Ok(LoginSession(Split(output.value, '\n')))
    {
      if output.None? {
        return Err("loginctl failed");
      }
      var lines := Split(output.value, '\n');
      FirstIdleIsFirst(lines);
      var processes: seq<Process> := [];
      var details := "";
      var i := 0;
      while i < |lines|
        invariant i <= |lines|
        invariant forall j :: 0 <= j < i ==> Index(lines[j], IdleHintNo) < 0
        invariant details == Prefix(lines[..i]) && processes == []
      {
        var line := lines[i];
        if Index(line, IdleHintNo) >= 0 {
          details := details + line;
          processes := processes + [SessionRecord(details)];
          FirstIdleAt(lines, i);
          assert details == Prefix(lines[..i]) + lines[i];
          assert LoginSession(lines) == processes;
          return Ok(processes);
        }
        PrefixSnoc(lines, i);
        details := details + line;
        details := details + " | ";
        i := i + 1;
      }
      FirstIdleAt(lines, |lines|);
      return Ok(processes);
    }

    /** GetPreventSleepProcesses: the systemd, session and (on a desktop)
        desktop records, in that order; a failed command contributes
        nothing. No system flags and no kernel assertions are reported. */
    method GetPreventSleepProcesses(systemd: Option<string>, loginctl: Option<string>, desktop: bool,
                                    gsettings: Option<string>, xset: Option<string>,
                                    selfPid: int, cmdline: int -> Option<string>)
      returns (processes: seq<Process>, powerState: PowerState, kernel: seq<KernelAssertion>)
      modifies this
      ensures processes ==
        (if systemd.Some? then SystemdRecords(Split(systemd.value, '\n'), cmdline) else [])
        + (if loginctl.Some? then LoginSession(Split(loginctl.value, '\n')) else [])
        + (if desktop then DesktopRecords(gsettings, xset) else [])
      ensures powerState == NoPower && kernel == []
      ensures systemd.None? ==> currentProcess == old(currentProcess)
      ensures systemd.Some? ==>
        currentProcess == SelfRecord(SystemdRecords(Split(systemd.value, '\n'), cmdline), selfPid, old(currentProcess))
    {
      ghost var fromSystemd := if systemd.Some? then SystemdRecords(Split(systemd.value, '\n'), cmdline) else [];
      ghost var fromSession := if loginctl.Some? then LoginSession(Split(loginctl.value, '\n')) else [];
      ghost var fromDesktop := if desktop then DesktopRecords(gsettings, xset) else [];
      processes := [];
      powerState := NoPower;
      var s := GetSystemdInhibitors(systemd, selfPid, cmdline);
      if s.Ok? {
        NilAppend(s.value);
        processes := processes + s.value;
      }
      assert processes == fromSystemd;
      var l := GetLoginSessionInhibitors(loginctl);
      if l.Ok? {
        processes := processes + l.value;
      } else {
        NilAppend(processes);
      }
      assert processes == fromSystemd + fromSession;
      if desktop {
        processes := processes + DesktopRecords(gsettings, xset);
      } else {
        NilAppend(processes);
      }
      assert processes == fromSystemd + fromSession + fromDesktop;
      kernel := [];
    }
  }
}
