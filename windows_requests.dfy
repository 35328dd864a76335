/** The windows power-assertion provider: the report of `powercfg
    /requests`, given as the command's output (`None` when it failed). The
    report lists, under the DISPLAY:, SYSTEM: and AWAYMODE: headers, one
    [PROCESS], [DRIVER] or [SERVICE] entry line per request, each followed
    by its free-text lines. */
module WindowsRequests {
  import opened GoText
  import opened PowerTypes

  const ProcessTag: string := "[PROCESS]"
  const DriverTag: string := "[DRIVER]"
  const ServiceTag: string := "[SERVICE]"

  /** The type a section header line sets, testing the three headers in order. */
  function SectionType(line: string): (r: Option<string>)
  {
    if HasPrefix(line, "DISPLAY:") then Some(PreventDisplaySleep)
    else if HasPrefix(line, "SYSTEM:") then Some(PreventSystemSleep)
    else if HasPrefix(line, "AWAYMODE:") then Some(PreventUserIdleSystemSleep)
    else None
  }

  predicate IsEntry(line: string) {
    HasPrefix(line, ProcessTag) || HasPrefix(line, DriverTag) || HasPrefix(line, ServiceTag)
  }

  /** The name of an entry: for a process, the text after its last
      backslash (the executable's file name); otherwise the whole line. */
  function EntryName(line: string): (r: string)
  {
    if HasPrefix(line, ProcessTag) then
      var parts := Split(line, '\\');
      parts[|parts| - 1]
    else line
  }

  /** A process entry's name is a path suffix without backslashes, and
      the line ends with it; a driver or service is named by its line. */
  lemma EntryNameCases(line: string)
    ensures HasPrefix(line, ProcessTag) ==>
      '\\' !in EntryName(line) && |EntryName(line)| <= |line| && line[|line| - |EntryName(line)|..] == EntryName(line)
    ensures !HasPrefix(line, ProcessTag) ==> EntryName(line) == line
  {
    if HasPrefix(line, ProcessTag) {
      LastPiece(line, '\\');
    }
  }

  /** The last piece of a split is a suffix of the input. */
  lemma LastPiece(s: string, sep: char)
    ensures var parts := Split(s, sep);
      |parts[|parts| - 1]| <= |s| && s[|s| - |parts[|parts| - 1]|..] == parts[|parts| - 1]
  {
    LastPieceEnds(s, sep);
  }

  /** s ends with p. */
  predicate EndsWith(s: string, p: string) {
    |p| <= |s| && s[|s| - |p|..] == p
  }

  lemma {:induction false} LastPieceEnds(s: string, sep: char)
    ensures var parts := Split(s, sep); EndsWith(s, parts[|parts| - 1])
    decreases |s|
  {
    var i := FirstOf(s, sep);
    if i < |s| {
      LastPieceEnds(s[i + 1..], sep);
      var p := SplitLastRest(s, sep);
      EndsWithFrom(s, i + 1, p);
    } else {
      assert Split(s, sep) == [s];
      assert s[0..] == s;
    }
  }

  /** What a suffix of s ends with, s ends with. */
  lemma EndsWithFrom(s: string, j: int, p: string)
    requires 0 <= j <= |s| && EndsWith(s[j..], p)
    ensures EndsWith(s, p)
  {
    SuffixOfSuffix(s, j, |p|);
  }

  /** Past a separator, the last piece is the last piece of the rest. */
  lemma SplitLastRest(s: string, sep: char) returns (p: string)
    requires FirstOf(s, sep) < |s|
    ensures var parts := Split(s, sep); p == parts[|parts| - 1]
    ensures var rest := Split(s[FirstOf(s, sep) + 1..], sep); p == rest[|rest| - 1]
  {
    var i := FirstOf(s, sep);
    var rest := Split(s[i + 1..], sep);
    assert Split(s, sep) == [s[..i]] + rest;
    p := rest[|rest| - 1];
  }

  /** The last n elements of a suffix of s are the last n of s. */
  lemma SuffixOfSuffix(s: string, j: int, n: int)
    requires 0 <= j <= |s| && 0 <= n <= |s| - j
    ensures s[j..][|s| - j - n..] == s[|s| - n..]
  {
  }

  // ---------------------------------------------------------------------
  // The parse loop

  /** Where the scan stands: the records emitted, the record being filled
      (`pending`, unnamed when there is none), the type of the current
      section and the header text of that section ("" before any). */
  datatype Scan = Scan(done: seq<Process>, pending: Process, kind: string, header: string)

  const Start: Scan := Scan([], EmptyProcess, "", "")

  /** The record an entry line opens. */
  function Opened(s: Scan, line: string): (p: Process)
  {
    Process(0, EntryName(line), "", s.kind, if |s.header| > 0 then s.header + " | " + line else line, "")
  }

  /** The records so far, the pending one included when it has a name. */
  function Emitted(s: Scan): (r: seq<Process>)
  {
    if s.pending.name != "" then s.done + [s.pending] else s.done
  }

  /** One trimmed line. */
  function StepLine(s: Scan, line: string): (r: Scan)
  {
    if line == "" then s
    else if SectionType(line).Some? then s.(kind := SectionType(line).value, header := line)
    else if IsEntry(line) then Scan(Emitted(s), Opened(s, line), s.kind, s.header)
    else if s.pending.name != "" then
      s.(pending := s.pending.(details := s.pending.details + " | " + line,
                               reason := if s.pending.reason == "" then line else s.pending.reason))
    else s
  }

  function Scanned(lines: seq<string>): (r: Scan)
  {
    if lines == [] then Start else StepLine(Scanned(lines[..|lines| - 1]), TrimSpace(lines[|lines| - 1]))
  }

  /** The records of the whole report. */
  function Requests(lines: seq<string>): (r: seq<Process>)
  {
    Emitted(Scanned(lines))
  }

  /** A header line switches the type and the header text and emits
      nothing. */
  lemma HeaderLine(s: Scan, line: string)
    requires line != "" && SectionType(line).Some?
    ensures StepLine(s, line).done == s.done && StepLine(s, line).pending == s.pending
    ensures StepLine(s, line).kind in {PreventDisplaySleep, PreventSystemSleep, PreventUserIdleSystemSleep}
    ensures StepLine(s, line).header == line
  {
  }

  /** An entry line emits the pending record only when it has a name, and
      opens a new one of the current type with no reason; its details are
      the header and the line when a header was seen, else the line. */
  lemma EntryLine(s: Scan, line: string)
    requires line != "" && SectionType(line).None? && IsEntry(line)
    ensures var r := StepLine(s, line);
      r.done == (if s.pending.name != "" then s.done + [s.pending] else s.done)
      && r.pending.kind == s.kind && r.pending.reason == "" && r.pending.name == EntryName(line)
      && r.pending.details == (if s.header != "" then s.header + " | " + line else line)
  {
  }

  /** Any other line is appended to the details of the pending record,
      and the first such line becomes its reason; without a pending
      record the line is ignored. */
  lemma DetailLine(s: Scan, line: string)
    requires line != "" && SectionType(line).None? && !IsEntry(line)
    ensures var r := StepLine(s, line);
      r.done == s.done && r.kind == s.kind && r.header == s.header
      && (s.pending.name == "" ==> r == s)
      && (s.pending.name != "" ==>
            r.pending.name == s.pending.name && r.pending.details == s.pending.details + " | " + line
            && r.pending.reason == (if s.pending.reason == "" then line else s.pending.reason))
  {
  }

  /** A trimmed line that opens a record with a name. */
  predicate NamedEntry(line: string) {
    line != "" && SectionType(line).None? && IsEntry(line) && EntryName(line) != ""
  }

  /** The names the entry lines carry, in input order: one record each. */
  function EntryNames(lines: seq<string>): (r: seq<string>)
  {
    if lines == [] then []
    else
      var line := TrimSpace(lines[|lines| - 1]);
      EntryNames(lines[..|lines| - 1]) + (if NamedEntry(line) then [EntryName(line)] else [])
  }

  /** The names of the records, in order. */
  function Names(ps: seq<Process>): (r: seq<string>)
    ensures |r| == |ps| && forall k :: 0 <= k < |ps| ==> r[k] == ps[k].name
  {
    if ps == [] then [] else Names(ps[..|ps| - 1]) + [ps[|ps| - 1].name]
  }

  lemma NamesSnoc(ps: seq<Process>, p: Process)
    ensures Names(ps + [p]) == Names(ps) + [p.name]
  {
    assert (ps + [p])[..|ps|] == ps;
  }

  /** Every emitted and every pending named record has a name and the
      type of a section, or "" before the first header. */
  predicate Good(s: Scan) {
    (forall k :: 0 <= k < |s.done| ==> s.done[k].name != "")
    && (forall k :: 0 <= k < |s.done| ==> s.done[k].kind in {"", PreventDisplaySleep, PreventSystemSleep, PreventUserIdleSystemSleep})
    && s.pending.kind in {"", PreventDisplaySleep, PreventSystemSleep, PreventUserIdleSystemSleep}
    && s.kind in {"", PreventDisplaySleep, PreventSystemSleep, PreventUserIdleSystemSleep}
  }

  lemma StepGood(s: Scan, line: string)
    requires Good(s)
    ensures Good(StepLine(s, line))
  {
    if line == "" {
    } else if SectionType(line).Some? {
      HeaderLine(s, line);
    } else if IsEntry(line) {
      EmittedGood(s);
      var r := StepLine(s, line);
      assert r == Scan(Emitted(s), Opened(s, line), s.kind, s.header);
    } else {
      DetailLine(s, line);
    }
  }

  /** A line adds its name to the record names exactly when it is a named
      entry line. */
  lemma StepNames(s: Scan, line: string)
    ensures Names(Emitted(StepLine(s, line))) == Names(Emitted(s)) + (if NamedEntry(line) then [EntryName(line)] else [])
  {
    if line == "" || SectionType(line).Some? {
    } else if IsEntry(line) {
      EntryNames1(s, line);
    } else {
      DetailNames(s, line);
    }
  }

  lemma EntryNames1(s: Scan, line: string)
    requires line != "" && SectionType(line).None? && IsEntry(line)
    ensures Names(Emitted(StepLine(s, line))) == Names(Emitted(s)) + (if EntryName(line) != "" then [EntryName(line)] else [])
  {
    var r := StepLine(s, line);
    assert r == Scan(Emitted(s), Opened(s, line), s.kind, s.header);
    if EntryName(line) != "" {
      NamesSnoc(Emitted(s), Opened(s, line));
    }
  }

  lemma DetailNames(s: Scan, line: string)
    requires line != "" && SectionType(line).None? && !IsEntry(line)
    ensures Names(Emitted(StepLine(s, line))) == Names(Emitted(s))
  {
    DetailLine(s, line);
    var r := StepLine(s, line);
    if s.pending.name != "" {
      NamesSnoc(s.done, s.pending);
      NamesSnoc(r.done, r.pending);
    }
  }

  lemma {:induction false} ScannedGood(lines: seq<string>)
    ensures Good(Scanned(lines)) && Names(Emitted(Scanned(lines))) == EntryNames(lines)
  {
    if lines != [] {
      var front := lines[..|lines| - 1];
      var line := TrimSpace(lines[|lines| - 1]);
      assert Scanned(lines) == StepLine(Scanned(front), line);
      assert EntryNames(lines) == EntryNames(front) + (if NamedEntry(line) then [EntryName(line)] else []);
      ScannedGood(front);
      StepGood(Scanned(front), line);
      StepNames(Scanned(front), line);
    }
  }

  lemma EmittedGood(s: Scan)
    requires Good(s)
    ensures forall k :: 0 <= k < |Emitted(s)| ==>
      Emitted(s)[k].name != "" && Emitted(s)[k].kind in {"", PreventDisplaySleep, PreventSystemSleep, PreventUserIdleSystemSleep}
  {
  }

  /** One record per entry line with a name, in input order, each named
      after its line and with a known type (or none before the first header). */
  lemma RequestsCount(lines: seq<string>)
    ensures |Requests(lines)| == |EntryNames(lines)|
    ensures forall k :: 0 <= k < |Requests(lines)| ==>
      Requests(lines)[k].name == EntryNames(lines)[k]
      && Requests(lines)[k].name != ""
      && Requests(lines)[k].kind in {"", PreventDisplaySleep, PreventSystemSleep, PreventUserIdleSystemSleep}
  {
    ScannedGood(lines);
    EmittedGood(Scanned(lines));
  }

  /** Lines before the first entry produce nothing: until then no record
      is pending or emitted. */
  lemma {:induction false} NoEntryNoRecord(lines: seq<string>)
    requires forall k :: 0 <= k < |lines| ==> !IsEntry(TrimSpace(lines[k]))
    ensures Scanned(lines).done == [] && Scanned(lines).pending == EmptyProcess
    ensures Requests(lines) == []
  {
    if lines != [] {
      NoEntryNoRecord(lines[..|lines| - 1]);
    }
  }

  /** The first record named `name`, if any. */
  function FirstNamed(ps: seq<Process>, name: string): (r: Option<Process>)
  {
    if ps == [] then None else if ps[0].name == name then Some(ps[0]) else FirstNamed(ps[1..], name)
  }

  /** FirstNamed picks the record at the first position with that name, and
      finds none only when no record has it. */
  lemma {:induction false} FirstNamedAt(ps: seq<Process>, name: string, i: nat)
    requires i <= |ps| && forall j :: 0 <= j < i ==> ps[j].name != name
    ensures i < |ps| && ps[i].name == name ==> FirstNamed(ps, name) == Some(ps[i])
    ensures i == |ps| ==> FirstNamed(ps, name) == None
  {
    if i > 0 {
      assert ps[0].name != name;
      FirstNamedAt(ps[1..], name, i - 1);
    }
  }

  // ---------------------------------------------------------------------
  // Descriptions

  /** GetProcessDetailInfo on windows: CR-LF pairs become " | " before
      the white space is collapsed. */
  function ProcessDetailInfo(p: Process): (r: string)
  {
    DetailInfo(p, "\r\n", " | ")
  }

  /** Other records show the words of their details with each CR-LF pair
      replaced by " | ", in order, single blanks between words and no
      carriage return or line feed. */
  lemma ProcessDetailInfoCases(p: Process)
    ensures p.name == CurrentProcessName ==> ProcessDetailInfo(p) == p.details
    ensures p.name != CurrentProcessName && p.details != "" ==>
      Normalized(ProcessDetailInfo(p)) && '\r' !in ProcessDetailInfo(p) && '\n' !in ProcessDetailInfo(p)
      && Fields(ProcessDetailInfo(p)) == Fields(ReplaceAll(p.details, "\r\n", " | "))
    ensures p.name != CurrentProcessName && p.details == "" ==>
      ProcessDetailInfo(p) == if p.reason != "" then p.reason else NoDetails
  {
    DetailInfoCases(p, "\r\n", " | ");
    if p.name != CurrentProcessName && p.details != "" {
      var r := ProcessDetailInfo(p);
      assert forall k | 0 <= k < |r| :: IsSpace(r[k]) ==> r[k] == ' ';
    }
  }

  // ---------------------------------------------------------------------
  // The provider

  class Provider {
    var currentProcess: Option<Process>

    constructor ()
      ensures currentProcess.None?
    {
      currentProcess := None;
    }

    /** GetProcessDescription. */
    function GetProcessDescription(p: Process): (r: string)
    {
      TypeDescription(p.kind)
    }

    /** One trimmed line of the loop body. */
    method ReadLine(s: Scan, line: string) returns (r: Scan)
      ensures r == StepLine(s, line)
    {
      var currentProcess, currentType, originalInfo := s.pending, s.kind, s.header;
      var processes := s.done;
      if line == "" {
        return s;
      }
      if HasPrefix(line, "DISPLAY:") {
        currentType := PreventDisplaySleep;
        originalInfo := "";
        originalInfo := originalInfo + line;
        NilAppend(line);
        return Scan(processes, currentProcess, currentType, originalInfo);
      } else if HasPrefix(line, "SYSTEM:") {
        currentType := PreventSystemSleep;
        originalInfo := "";
        originalInfo := originalInfo + line;
        NilAppend(line);
        return Scan(processes, currentProcess, currentType, originalInfo);
      } else if HasPrefix(line, "AWAYMODE:") {
        currentType := PreventUserIdleSystemSleep;
        originalInfo := "";
        originalInfo := originalInfo + line;
        NilAppend(line);
        return Scan(processes, currentProcess, currentType, originalInfo);
      }
      if HasPrefix(line, ProcessTag) || HasPrefix(line, DriverTag) || HasPrefix(line, ServiceTag) {
        if currentProcess.name != "" {
          processes := processes + [currentProcess];
        }
        currentProcess := EmptyProcess.(kind := currentType);
        if HasPrefix(line, ProcessTag) {
          var parts := Split(line, '\\');
          if |parts| > 0 {
            currentProcess := currentProcess.(name := parts[|parts| - 1]);
          }
        } else {
          currentProcess := currentProcess.(name := line);
        }
        if |originalInfo| > 0 {
          currentProcess := currentProcess.(details := originalInfo + " | " + line);
        } else {
          currentProcess := currentProcess.(details := line);
        }
      } else if currentProcess.name != "" {
        currentProcess := currentProcess.(details := currentProcess.details + " | " + line);
        if currentProcess.reason == "" {
          currentProcess := currentProcess.(reason := line);
        }
      }
      return Scan(processes, currentProcess, currentType, originalInfo);
    }

    /** The scanning loop and the final emit: the records of the report. */
    method ScanRequests(lines: seq<string>) returns (processes: seq<Process>)
      ensures processes == Requests(lines)
    {
      var scan := Start;
      for i := 0 to |lines|
        invariant scan == Scanned(lines[..i])
      {
        assert lines[..i + 1][..i] == lines[..i];
        var line := TrimSpace(lines[i]);
        scan := ReadLine(scan, line);
      }
      assert lines[..|lines|] == lines;
      processes := scan.done;
      if scan.pending.name != "" {
        processes := processes + [scan.pending];
      }
    }

    /** The search for this program's own record: the first one with its name. */
    method FindNamed(processes: seq<Process>, name: string) returns (r: Option<Process>)
      ensures r == FirstNamed(processes, name)
      ensures r.Some? ==> r.value in processes && r.value.name == name
    {
      var i := 0;
      while i < |processes|
        invariant i <= |processes|
        invariant forall j :: 0 <= j < i ==> processes[j].name != name
      {
        if processes[i].name == name {
          FirstNamedAt(processes, name, i);
          return Some(processes[i]);
        }
        i := i + 1;
      }
      FirstNamedAt(processes, name, i);
      return None;
    }

    /** GetPreventSleepProcesses: the requests of the report, and as this
        program's record the first one named like this program (`selfName`,
        the command it was started as); the record kept before stays when
        there is none or the command failed. No system flags and no kernel
        assertions are reported. */
    method GetPreventSleepProcesses(output: Option<string>, selfName: string)
      returns (r: Result<(seq<Process>, PowerState, seq<KernelAssertion>)>)
      modifies this
      ensures output.None? ==> r.Err? && currentProcess == old(currentProcess)
      ensures output.Some? ==>
        var ps := Requests(Split(output.value, '\n'));
        r == Ok((ps, NoPower, []))
        && currentProcess == (if FirstNamed(ps, selfName).Some? then FirstNamed(ps, selfName) else old(currentProcess))
    {
      if output.None? {
        return Err("powercfg failed");
      }
      var processes := ScanRequests(Split(output.value, '\n'));
      var self := FindNamed(processes, selfName);
      if self.Some? {
        currentProcess := self;
      }
      return Ok((processes, NoPower, []));
    }
  }
}
