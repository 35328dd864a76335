/** The macOS provider: it reads the text `pmset -g assertions` prints
    (given here as the `output` string; a failed command is `None`) line by
    line, with a running section, and collects the system-wide flags, one
    record per owning-process line, and kernel assertions. */
module DarwinAssertions {
  import opened GoText
  import opened PowerTypes

  const SystemHeader: string := "Assertion status system-wide:"
  const ProcessHeader: string := "Listed by owning process:"
  const KernelHeader: string := "Kernel Assertions:"
  const ReasonMarker: string := "named: \""
  const KernelPrefix: string := "   id="
  const CaffeinateName: string := "caffeinate"

  // ---------------------------------------------------------------------
  // System-wide flags

  /** parseSystemAssertion: "<Name> ... <value>" sets the flag Name drives
      to whether the last field is "1". */
  function SystemAssertion(line: string, ps: PowerState): (r: PowerState)
  {
    var parts := Fields(line);
    if |parts| < 2 then ps else SetFlag(ps, FlagOf(parts[0]), parts[|parts| - 1] == "1")
  }

  /** The flags by number. */
  function Flag(ps: PowerState, i: nat): bool
    requires i < 6
  {
    if i == 0 then ps.preventSystemSleep
    else if i == 1 then ps.preventUserIdle
    else if i == 2 then ps.preventDisplaySleep
    else if i == 3 then ps.backgroundActivity
    else if i == 4 then ps.externalDevice
    else ps.networkActivity
  }

  /** Flag number `i` set to `value`; any other number changes nothing. */
  function SetFlag(ps: PowerState, i: int, value: bool): (r: PowerState)
  {
    if i == 0 then ps.(preventSystemSleep := value)
    else if i == 1 then ps.(preventUserIdle := value)
    else if i == 2 then ps.(preventDisplaySleep := value)
    else if i == 3 then ps.(backgroundActivity := value)
    else if i == 4 then ps.(externalDevice := value)
    else if i == 5 then ps.(networkActivity := value)
    else ps
  }

  /** The switch on the assertion name: which flag the name drives (both
      display-sleep names drive the same one), or -1 for any other name. */
  function FlagOf(name: string): (r: int)
    ensures -1 <= r < 6
  {
    if name == "BackgroundTask" then 3
    else if name == "PreventSystemSleep" then 0
    else if name == "PreventUserIdleSystemSleep" then 1
    else if name == "PreventUserIdleDisplaySleep" || name == "InternalPreventDisplaySleep" then 2
    else if name == "ExternalMedia" then 4
    else if name == "NetworkClientActive" then 5
    else -1
  }

  /** Exactly the flag numbered `j` takes the value; every other flag keeps its value. */
  lemma SetFlagEffect(ps: PowerState, j: int, value: bool, i: nat)
    requires i < 6
    ensures Flag(SetFlag(ps, j, value), i) == if j == i then value else Flag(ps, i)
  {
    if j == i {
      SetFlagSame(ps, i, value);
    } else {
      SetFlagOther(ps, j, value, i);
    }
  }

  lemma SetFlagSame(ps: PowerState, i: nat, value: bool)
    requires i < 6
    ensures Flag(SetFlag(ps, i, value), i) == value
  {
  }

  lemma SetFlagOther(ps: PowerState, j: int, value: bool, i: nat)
    requires i < 6 && j != i
    ensures Flag(SetFlag(ps, j, value), i) == Flag(ps, i)
  {
    if j == 0 {
      assert SetFlag(ps, j, value) == ps.(preventSystemSleep := value);
    } else if j == 1 {
      assert SetFlag(ps, j, value) == ps.(preventUserIdle := value);
    } else if j == 2 {
      assert SetFlag(ps, j, value) == ps.(preventDisplaySleep := value);
    } else if j == 3 {
      assert SetFlag(ps, j, value) == ps.(backgroundActivity := value);
    } else if j == 4 {
      assert SetFlag(ps, j, value) == ps.(externalDevice := value);
    } else if j == 5 {
      assert SetFlag(ps, j, value) == ps.(networkActivity := value);
    } else {
      assert SetFlag(ps, j, value) == ps;
    }
  }

  /** A line of fewer than two fields changes nothing; otherwise the flag
      named by its first field becomes whether its last field is "1". */
  lemma SystemAssertionEffect(line: string, ps: PowerState, i: nat)
    requires i < 6
    ensures var parts := Fields(line);
      Flag(SystemAssertion(line, ps), i)
        == if |parts| >= 2 && FlagOf(parts[0]) == i then parts[|parts| - 1] == "1" else Flag(ps, i)
  {
    var parts := Fields(line);
    if |parts| >= 2 {
      SetFlagEffect(ps, FlagOf(parts[0]), parts[|parts| - 1] == "1", i);
    }
  }

  // ---------------------------------------------------------------------
  // Owning-process lines

  /** The PID: the integer between "pid " and the next "(", else 0. */
  function PidOf(line: string): (r: int)
  {
    var pidStart := Index(line, "pid ");
    if pidStart == -1 then 0
    else
      var pidStr := TrimSpace(line[pidStart + 4..]);
      var pidEnd := Index(pidStr, "(");
      if pidEnd == -1 then 0
      else match Atoi(pidStr[..pidEnd])
        case Some(v) => v
        case None => 0
  }

  /** The name: the text between the first "(" and the next ")". */
  function NameOf(line: string): (r: string)
  {
    var start := Index(line, "(");
    if start == -1 then ""
    else
      var end := Index(line[start..], ")");
      if end == -1 then ""
      else
        assert !OccursAt(line[start..], ")", 0) by { assert line[start..][0] == line[start..start + 1][0]; }
        line[start + 1..start + end]
  }

  /** The duration: the text after "] " up to the next blank. */
  function DurationOf(line: string): (r: string)
  {
    var timeStart := Index(line, "] ");
    if timeStart == -1 then ""
    else
      var timeEnd := Index(line[timeStart + 2..], " ");
      if timeEnd == -1 then "" else line[timeStart + 2..timeStart + 2 + timeEnd]
  }

  /** The line from the opening quote of `named: "` on, or the whole line. */
  function AfterMarker(line: string): (r: string)
  {
    var start := Index(line, ReasonMarker);
    if start == -1 then line else line[start + 7..]
  }

  /** The reason: the text from the cut made at `named: "` up to the next quote. */
  function ReasonOf(line: string): (r: string)
  {
    var start := Index(line, ReasonMarker);
    if start == -1 then ""
    else
      var rest := line[start + 7..];
      var end := Index(rest, "\"");
      if end == -1 then "" else rest[..end]
  }

  const Kinds: set<string> := {PreventUserIdleSystemSleep, PreventSystemSleep, PreventDisplaySleep,
                               "BackgroundTask", "NetworkClientActive", "ExternalMedia"}

  /** The keywords looked for in the line, in priority order, and those
      looked for in the reason with the type each implies. */
  const TypeKeywords: seq<(string, string)> := [
    (PreventUserIdleSystemSleep, PreventUserIdleSystemSleep),
    (PreventSystemSleep, PreventSystemSleep),
    (PreventDisplaySleep, PreventDisplaySleep),
    ("BackgroundTask", "BackgroundTask"),
    ("NetworkClientActive", "NetworkClientActive"),
    ("ExternalMedia", "ExternalMedia")]
  const ReasonKeywords: seq<(string, string)> := [
    ("display", PreventDisplaySleep),
    ("network", "NetworkClientActive"),
    ("background", "BackgroundTask")]

  /** The type implied by the first keyword of `keys` that `text` contains. */
  function FirstKeyword(text: string, keys: seq<(string, string)>): (r: Option<string>)
  {
    if keys == [] then None
    else if Index(text, keys[0].0) >= 0 then Some(keys[0].1)
    else FirstKeyword(text, keys[1..])
  }

  /** The type: the first keyword found in the line, in fixed priority
      order, else one inferred from the reason, else PreventUserIdleSystemSleep. */
  function KindOf(text: string, reason: string): (r: string)
  {
    match FirstKeyword(text, TypeKeywords)
    case Some(kind) => kind
    case None =>
      match FirstKeyword(reason, ReasonKeywords)
      case Some(kind) => kind
      case None => PreventUserIdleSystemSleep
  }

  /** The keyword found is one of the list's, and none is found exactly
      when the text contains none of the keywords. */
  lemma {:induction false} FirstKeywordSound(text: string, keys: seq<(string, string)>)
    ensures FirstKeyword(text, keys).Some? ==> exists k :: k in keys && FirstKeyword(text, keys).value == k.1
    ensures FirstKeyword(text, keys).None? <==> forall k :: k in keys ==> !Contains(text, k.0)
  {
    if keys != [] {
      FirstKeywordSound(text, keys[1..]);
      assert keys[0] in keys;
      assert forall k :: k in keys[1..] ==> k in keys;
      assert forall k :: k in keys ==> k == keys[0] || k in keys[1..];
    }
  }

  /** Every type found is one of the six fixed names. */
  lemma KindIn(text: string, reason: string)
    ensures KindOf(text, reason) in Kinds
  {
    KeywordKinds();
    FirstKeywordIn(text, TypeKeywords);
    FirstKeywordIn(reason, ReasonKeywords);
  }

  lemma KeywordKinds()
    ensures forall k :: k in TypeKeywords ==> k.1 in Kinds
    ensures forall k :: k in ReasonKeywords ==> k.1 in Kinds
  {
  }

  /** With every type of the list among the six names, the one found is too. */
  lemma FirstKeywordIn(text: string, keys: seq<(string, string)>)
    requires forall k :: k in keys ==> k.1 in Kinds
    ensures FirstKeyword(text, keys).Some? ==> FirstKeyword(text, keys).value in Kinds
  {
    FirstKeywordSound(text, keys);
  }

  /** parseProcessLine. Type and Details are taken from the line as cut at
      the reason marker. */
  function ProcessLine(line: string): (r: Process)
  {
    var rest := AfterMarker(line);
    var reason := ReasonOf(line);
    Process(PidOf(line), NameOf(line), reason, KindOf(rest, reason), rest, DurationOf(line))
  }

  /** parseProcessDetail: one continuation line appended to the details. */
  function ProcessDetail(line: string, p: Process): (r: Process)
  {
    var l := if HasPrefix(line, "\t") then line[1..] else line;
    if p.details == "" then p.(details := l) else p.(details := p.details + " | " + l)
  }

  /** The cut at `named: "` keeps the opening quote, so the reason is
      always empty. */
  lemma ReasonAlwaysEmpty(line: string)
    ensures ReasonOf(line) == ""
  {
    var start := Index(line, ReasonMarker);
    if start != -1 {
      var rest := line[start + 7..];
      assert OccursAt(line, ReasonMarker, start);
      assert line[start + 7] == ReasonMarker[7] == '"' by {
        assert line[start..start + 8][7] == line[start + 7];
      }
      assert rest[0..1] == "\"" by { assert rest[0] == line[start + 7]; }
      assert Index(rest, "\"") == 0;
    }
  }

  /** Every record's type is one of the six fixed names; with the reason
      always empty, a line naming none of them gets PreventUserIdleSystemSleep. */
  lemma ProcessKind(line: string)
    ensures ProcessLine(line).kind in Kinds
    ensures ProcessLine(line).reason == ""
    ensures (forall k :: k in TypeKeywords ==> !Contains(AfterMarker(line), k.0))
      ==> ProcessLine(line).kind == PreventUserIdleSystemSleep
  {
    KindIn(AfterMarker(line), ReasonOf(line));
    ReasonAlwaysEmpty(line);
    forall k | k in ReasonKeywords
      ensures !Contains("", k.0)
    {
      assert |k.0| > 0;
    }
    NoKeyword("", ReasonKeywords);
    if forall k :: k in TypeKeywords ==> !Contains(AfterMarker(line), k.0) {
      NoKeyword(AfterMarker(line), TypeKeywords);
    }
  }

  lemma {:induction false} NoKeyword(text: string, keys: seq<(string, string)>)
    requires forall k :: k in keys ==> !Contains(text, k.0)
    ensures FirstKeyword(text, keys) == None
  {
    if keys != [] {
      assert keys[0] in keys;
      NoKeyword(text, keys[1..]);
    }
  }

  /** A character found at `j` and nowhere before it is first found at `j`. */
  lemma IndexOfCharAt(s: string, c: char, j: nat)
    requires j < |s| && s[j] == c && c !in s[..j]
    ensures Index(s, [c]) == j
  {
    assert OccursAt(s, [c], j) by { assert s[j..j + 1] == [c]; }
    forall k | 0 <= k < j
      ensures !OccursAt(s, [c], k)
    {
      assert s[k..k + 1][0] == s[..j][k];
    }
  }

  /** The first occurrence of a character that does not occur before it. */
  lemma IndexOfChar(a: string, c: char, b: string)
    requires c !in a
    ensures Index(a + [c] + b, [c]) == |a|
  {
    var s := a + [c] + b;
    assert OccursAt(s, [c], |a|) by { assert s[|a|..|a| + 1] == [c]; }
    forall k | 0 <= k < |a|
      ensures !OccursAt(s, [c], k)
    {
      assert s[k..k + 1][0] == a[k];
    }
  }

  /** The PID is read back from a line of pmset's shape "pid <n>(<name>)...":
      "pid ", the decimal digits of n, then anything starting with "(". */
  lemma PidBack(n: int, tail: string)
    requires 0 <= n <= MaxInt64
    requires tail != [] && tail[0] == '('
    ensures PidOf("pid " + (Itoa(n) + tail)) == n
  {
    PidParts(n, tail);
    AtoiItoa(n);
  }

  /** Where PidOf cuts a line "pid <n>(...": after "pid ", and before the "(". */
  lemma PidParts(n: int, tail: string)
    requires 0 <= n <= MaxInt64
    requires tail != [] && tail[0] == '('
    ensures var line := "pid " + (Itoa(n) + tail);
      var pidStr := TrimSpace(line[4..]);
      Index(line, "pid ") == 0 && Index(pidStr, "(") == |Itoa(n)| && pidStr[..|Itoa(n)|] == Itoa(n)
  {
    var digits := Itoa(n);
    var line := "pid " + (digits + tail);
    assert OccursAt(line, "pid ", 0) by { assert line[0..4] == "pid "; }
    assert line[4..] == digits + tail;
    var pidStr := TrimSpace(digits + tail);
    DigitsThenParen(digits, tail);
    IndexOfCharAt(pidStr, '(', |digits|);
  }

  /** Trimming digits followed by "(..." keeps the digits and the "(". */
  lemma DigitsThenParen(digits: string, tail: string)
    requires digits != [] && AllDigits(digits)
    requires tail != [] && tail[0] == '('
    ensures var p := TrimSpace(digits + tail);
      |digits| < |p| && p[..|digits|] == digits && p[|digits|] == '(' && '(' !in digits
  {
    var after := digits + tail;
    assert '(' !in digits by {
      forall k | 0 <= k < |digits| ensures digits[k] != '(' { assert IsDigit(digits[k]); }
    }
    assert after[0] == digits[0] && IsDigit(digits[0]);
    assert after[|digits|] == '(';
    TrimLeadingKept(after);
    var p := TrimSpace(after);
    assert |digits| < |p|;
    assert p == after[..|p|];
    assert after[..|digits|] == digits;
  }

  /** The name is read back from a line "<prefix>(<name>)<rest>" whose
      prefix holds no "(" (as "pid <n>" does not): it is the text between
      the first "(" and the next ")". */
  lemma NameBack(prefix: string, name: string, rest: string)
    requires '(' !in prefix && '(' !in name && ')' !in name
    ensures NameOf(prefix + ("(" + (name + (")" + rest)))) == name
  {
    var tail := name + ([')'] + rest);
    AppendAssoc(prefix, ['('], tail);
    IndexOfChar(prefix, '(', tail);
    NamePieces(prefix, name, rest);
    assert ')' !in ['('] + name;
    IndexOfChar(['('] + name, ')', rest);
  }

  /** Where the parts of "<prefix>(<name>)<rest>" sit. */
  lemma NamePieces(prefix: string, name: string, rest: string)
    ensures var line := prefix + ("(" + (name + (")" + rest)));
      line[|prefix|..] == ['('] + name + [')'] + rest
      && line[|prefix| + 1..|prefix| + 1 + |name|] == name
  {
    var line := prefix + ("(" + (name + (")" + rest)));
    AppendAssoc(['('], name, [')'] + rest);
    AppendAssoc(['('] + name, [')'], rest);
    assert line[|prefix|..] == "(" + (name + (")" + rest));
    forall k | 0 <= k < |name| ensures line[|prefix| + 1 + k] == name[k] {
    }
  }

  /** Trimming a string that starts with a non-space character keeps
      every character up to its last non-space one. */
  lemma TrimLeadingKept(s: string)
    requires s != [] && !IsSpace(s[0])
    ensures var r := TrimSpace(s);
      r == s[..|r|] && forall k :: 0 <= k < |s| && !IsSpace(s[k]) ==> k < |r|
  {
    assert TrimLeft(s) == s;
    var r := TrimSpace(s);
    assert r == TrimRight(s);
    forall k | |r| <= k < |s|
      ensures IsSpace(s[k])
    {
      assert s[k] == s[|r|..][k - |r|];
    }
  }

  // ---------------------------------------------------------------------
  // Kernel assertions

  /** strings.SplitN(s, "=", 2). */
  function SplitOnce(s: string, c: char): (r: seq<string>)
    ensures c in s ==> |r| == 2 && c !in r[0] && r[0] + [c] + r[1] == s
    ensures c !in s ==> r == [s]
  {
    var i := FirstOf(s, c);
    if i == |s| then
      assert c !in s;
      [s]
    else
      assert s[..i] + [c] + s[i + 1..] == s;
      [s[..i], s[i + 1..]]
  }

  /** One "key=value" field of a kernel assertion line. */
  function KernelField(ka: KernelAssertion, part: string): (r: KernelAssertion)
  {
    if HasPrefix(part, "id=") then
      match Atoi(part[3..]) case Some(v) => ka.(id := v) case None => ka
    else if HasPrefix(part, "level=") then
      match Atoi(part[6..]) case Some(v) => ka.(level := v) case None => ka
    else if '=' in part then
      var kv := SplitOnce(part, '=');
      if |kv| != 2 then ka else KeyAssign(ka, kv[0], kv[1])
    else ka
  }

  /** The switch on the key of a "key=value" field. */
  function KeyAssign(ka: KernelAssertion, key: string, value: string): (r: KernelAssertion)
  {
    if key == "description" then ka.(description := value)
    else if key == "owner" then ka.(owner := value)
    else if key == "creat" then ka.(createTime := value)
    else if key == "mod" then ka.(modTime := value)
    else ka
  }

  function KernelFields(ka: KernelAssertion, parts: seq<string>): (r: KernelAssertion)
  {
    if parts == [] then ka else KernelField(KernelFields(ka, parts[..|parts| - 1]), parts[|parts| - 1])
  }

  /** parseKernelAssertion, as a value: nothing unless the line starts
      with three blanks and "id=". */
  function KernelAssertionOf(line: string): (r: Option<KernelAssertion>)
  {
    if !HasPrefix(line, KernelPrefix) then None else Some(KernelFields(EmptyKernel, Fields(line)))
  }

  /** parseKernelAssertion: a loop over the fields of the line. */
  method ParseKernelAssertion(line: string) returns (r: Option<KernelAssertion>)
    ensures r == KernelAssertionOf(line)
  {
    if !HasPrefix(line, KernelPrefix) {
      return None;
    }
    var ka := EmptyKernel;
    var parts := Fields(line);
    for i := 0 to |parts|
      invariant ka == KernelFields(EmptyKernel, parts[..i])
    {
      assert parts[..i + 1][..i] == parts[..i];
      ka := KernelField(ka, parts[i]);
    }
    assert parts[..|parts|] == parts;
    return Some(ka);
  }

  /** id= and level= take integers. */
  lemma KernelIdLevel(ka: KernelAssertion, n: int)
    requires MinInt64 <= n <= MaxInt64
    ensures KernelField(ka, "id=" + Itoa(n)).id == n
    ensures KernelField(ka, "level=" + Itoa(n)).level == n
  {
    AtoiItoa(n);
    var a := "id=" + Itoa(n);
    var b := "level=" + Itoa(n);
    assert a[..3] == "id=" && a[3..] == Itoa(n);
    assert b[..6] == "level=" && b[6..] == Itoa(n);
    assert b[..3] != "id=" by { assert b[..3][0] == 'l'; }
  }

  /** Any other "key=value" field is split at its first "=": everything
      after it, later "=" signs included, is the value. */
  lemma KernelText(ka: KernelAssertion, key: string, v: string)
    requires '=' !in key && |key| >= 3 && key[0] != 'i' && key[0] != 'l'
    ensures KernelField(ka, key + "=" + v) == KeyAssign(ka, key, v)
  {
    KeyValue(key, v);
  }

  lemma KeyValue(key: string, v: string)
    requires '=' !in key && |key| >= 3 && key[0] != 'i' && key[0] != 'l'
    ensures var part := key + "=" + v;
      '=' in part && SplitOnce(part, '=') == [key, v]
      && !HasPrefix(part, "id=") && !HasPrefix(part, "level=")
  {
    var part := key + "=" + v;
    assert part[|key|] == '=';
    assert part[..|key|] == key;
    var i := FirstOf(part, '=');
    forall k | 0 <= k < |key|
      ensures part[k] != '='
    {
      assert part[k] == key[k];
    }
    assert i == |key|;
    assert part[i + 1..] == v;
    assert part[..3][0] == key[0];
    assert |part| < 6 || part[..6][0] == key[0];
  }

  /** With every line trimmed first, no line begins with blanks, so no
      kernel assertion is ever produced. */
  lemma TrimmedNoKernel(raw: string)
    ensures KernelAssertionOf(TrimSpace(raw)) == None
  {
    var line := TrimSpace(raw);
    assert line == [] || !IsSpace(line[0]);
    assert |line| < 6 || line[..6][0] == line[0];
  }

  // ---------------------------------------------------------------------
  // Descriptions

  const CommonReasons: map<string, string> := map[
    "com.apple.powermanagement.timetowake" := "定时唤醒",
    "com.apple.backupd-auto" := "Time Machine 备份",
    "com.apple.backupd" := "Time Machine 备份",
    "com.apple.Safari.PowerSaveBlocker" := "Safari 播放媒体",
    "com.apple.iTunes.playback" := "iTunes/Music 播放媒体",
    "com.apple.audio.AppleHDAEngineOutput" := "音频输出",
    "displayAssertion" := "显示器保持开启",
    "UserIsActive" := "用户活动",
    "com.apple.BTStack" := "蓝牙设备连接",
    "caffeinate command-line tool" := "命令行阻止休眠工具"]

  /** getCommonReasonDescription: by type, then by well-known reason, else the reason itself. */
  function CommonReasonDescription(reason: string, kind: string): (r: string)
  {
    if kind == PreventUserIdleSystemSleep then "防止系统自动休眠"
    else if kind == PreventSystemSleep then "防止系统强制休眠"
    else if kind == PreventDisplaySleep then "防止显示器休眠"
    else if kind == "BackgroundTask" then "后台任务"
    else if kind == "NetworkClientActive" then "网络活动"
    else if kind == "ExternalMedia" then "外部设备"
    else if reason in CommonReasons then CommonReasons[reason]
    else reason
  }

  function ProcessDescription(p: Process): (r: string)
  {
    if p.name == CaffeinateName then "命令行阻止休眠工具" else CommonReasonDescription(p.reason, p.kind)
  }

  const KindDescriptions: set<string> :=
    {"防止系统自动休眠", "防止系统强制休眠", "防止显示器休眠", "后台任务", "网络活动", "外部设备", "命令行阻止休眠工具"}

  /** A record the parser produced always has one of the six types, so its
      description is one of seven fixed texts: the reason table is never
      consulted for it. */
  lemma ParsedDescriptionFixed(line: string)
    ensures ProcessDescription(ProcessLine(line)) in KindDescriptions
  {
    ProcessKind(line);
    KindDescriptionFixed(ProcessLine(line));
  }

  lemma KindDescriptionFixed(p: Process)
    requires p.kind in Kinds
    ensures ProcessDescription(p) in KindDescriptions
  {
  }

  /** GetProcessDetailInfo on macOS: tabs become blanks before the white
      space is collapsed. */
  function ProcessDetailInfo(p: Process): (r: string)
  {
    DetailInfo(p, "\t", " ")
  }

  /** Other records show the words of their details, in order, with single
      blanks between them and no tab. */
  lemma ProcessDetailInfoCases(p: Process)
    ensures p.name == CurrentProcessName ==> ProcessDetailInfo(p) == p.details
    ensures p.name != CurrentProcessName && p.details != "" ==>
      Normalized(ProcessDetailInfo(p)) && '\t' !in ProcessDetailInfo(p)
      && Fields(ProcessDetailInfo(p)) == Fields(p.details)
    ensures p.name != CurrentProcessName && p.details == "" ==>
      ProcessDetailInfo(p) == if p.reason != "" then p.reason else NoDetails
  {
    DetailInfoCases(p, "\t", " ");
    ReplaceSpaceKeepsWords(p.details, '\t', ' ');
    if p.name != CurrentProcessName && p.details != "" {
      var r := ProcessDetailInfo(p);
      assert forall k | 0 <= k < |r| :: IsSpace(r[k]) ==> r[k] == ' ';
    }
  }

  // ---------------------------------------------------------------------
  // The parse loop

  /** What one run of GetPreventSleepProcesses collects; `current` is the
      record of this program, kept by the provider between runs. */
  datatype Report = Report(
    processes: seq<Process>,
    power: PowerState,
    kernel: seq<KernelAssertion>,
    current: Option<Process>)

  /** What a trimmed line is, given the current section. */
  datatype LineKind = Blank | Header(section: string) | SystemLine | PidLine | KernelLine | Other

  function Classify(line: string, section: string): (k: LineKind)
  {
    if line == "" then Blank
    else if HeaderOf(line).Some? then Header(HeaderOf(line).value)
    else SectionKind(line, section)
  }

  /** The section a header line opens, testing the three headers in order. */
  function HeaderOf(line: string): (h: Option<string>)
  {
    if Index(line, SystemHeader) >= 0 then Some("system")
    else if Index(line, ProcessHeader) >= 0 then Some("process")
    else if Index(line, KernelHeader) >= 0 then Some("kernel")
    else None
  }

  /** What a line that is neither blank nor a header is, in its section. */
  function SectionKind(line: string, section: string): (k: LineKind)
  {
    if section == "system" then SystemLine
    else if section == "process" && HasPrefix(line, "pid ") then PidLine
    else if section == "kernel" then KernelLine
    else Other
  }

  /** The section after a line. */
  function NextSection(k: LineKind, section: string): string {
    if k.Header? then k.section else section
  }

  /** A record appended, and remembered when it is this program's. */
  function AddRecord(rep: Report, p: Process, selfPid: int): (r: Report)
  {
    var rep1 := rep.(processes := rep.processes + [p]);
    if p.pid == selfPid then rep1.(current := Some(p)) else rep1
  }

  /** The continuation lines after a "pid " line: those whose trimmed text
      starts with a tab. Returns the record and the index of the next line. */
  function Continuation(lines: seq<string>, k: nat, p: Process): (r: (Process, nat))
    requires k <= |lines|
    ensures k <= r.1 <= |lines|
    decreases |lines| - k
  {
    if k == |lines| then (p, k)
    else
      var d := TrimSpace(lines[k]);
      if !HasPrefix(d, "\t") then (p, k) else Continuation(lines, k + 1, ProcessDetail(d, p))
  }

  /** Where the loop stands after a line: the next index, the section and the report. */
  datatype Cursor = Cursor(next: nat, section: string, rep: Report)

  /** One iteration of the parse loop, starting at line i: a "pid " line
      also takes the continuation lines that follow it. */
  function Advance(lines: seq<string>, i: nat, section: string, rep: Report, selfPid: int, parse: string -> Process): (c: Cursor)
    requires i < |lines|
    ensures i < c.next <= |lines|
  {
    var line := TrimSpace(lines[i]);
    AdvanceBy(Classify(line, section), lines, i, line, section, rep, selfPid, parse)
  }

  /** The effect of line i, of kind k and trimmed text `line`. */
  function AdvanceBy(k: LineKind, lines: seq<string>, i: nat, line: string, section: string, rep: Report,
                     selfPid: int, parse: string -> Process): (c: Cursor)
    requires i < |lines|
    ensures i < c.next <= |lines|
  {
    match k
    case Blank => Cursor(i + 1, section, rep)
    case Header(sec) => Cursor(i + 1, sec, rep)
    case SystemLine => Cursor(i + 1, section, rep.(power := SystemAssertion(line, rep.power)))
    case PidLine =>
      var c := Continuation(lines, i + 1, parse(line));
      Cursor(c.1, section, AddRecord(rep, c.0, selfPid))
    case KernelLine =>
      var ka := KernelAssertionOf(line);
      Cursor(i + 1, section, if ka.Some? then rep.(kernel := rep.kernel + [ka.value]) else rep)
    case Other => Cursor(i + 1, section, rep)
  }

  /** The parse loop from line i on, in section `section`. */
  function ParseFrom(lines: seq<string>, i: nat, section: string, rep: Report, selfPid: int, parse: string -> Process): (r: Report)
    requires i <= |lines|
    decreases |lines| - i
  {
    if i == |lines| then rep
    else
      var c := Advance(lines, i, section, rep, selfPid, parse);
      ParseFrom(lines, c.next, c.section, c.rep, selfPid, parse)
  }

  /** What the loop has yet to do from index i; the detail loop can leave
      the index one past the end. */
  ghost function Remaining(lines: seq<string>, i: nat, section: string, rep: Report, selfPid: int, parse: string -> Process): Report
  {
    if i <= |lines| then ParseFrom(lines, i, section, rep, selfPid, parse) else rep
  }

  lemma RemainingAdvance(lines: seq<string>, i: nat, section: string, rep: Report, selfPid: int, parse: string -> Process)
    requires i < |lines|
    ensures var c := Advance(lines, i, section, rep, selfPid, parse);
      Remaining(lines, i, section, rep, selfPid, parse) == Remaining(lines, c.next, c.section, c.rep, selfPid, parse)
  {
  }

  /** The report for the whole output. */
  function Parse(output: string, current: Option<Process>, selfPid: int): (r: Report)
  {
    ParseFrom(Split(output, '\n'), 0, "", Report([], NoPower, [], current), selfPid, ProcessLine)
  }

  // A simpler reading of the same loop: every line on its own.

  /** The effect of one trimmed line on the report. */
  function LineStep(section: string, rep: Report, line: string, selfPid: int, parse: string -> Process): (r: Report)
  {
    LineStepBy(Classify(line, section), rep, line, selfPid, parse)
  }
  function LineStepBy(k: LineKind, rep: Report, line: string, selfPid: int, parse: string -> Process): (r: Report)
  {
    match k
    case SystemLine => rep.(power := SystemAssertion(line, rep.power))
    case PidLine => AddRecord(rep, parse(line), selfPid)
    case _ => rep
  }

  function Lines(ls: seq<string>, section: string, rep: Report, selfPid: int, parse: string -> Process): (r: Report)
    decreases |ls|
  {
    if ls == [] then rep
    else
      var line := TrimSpace(ls[0]);
      Lines(ls[1..], NextSection(Classify(line, section), section), LineStep(section, rep, line, selfPid, parse), selfPid, parse)
  }

  /** The records of a run of lines: one per "pid " line in the process
      section, in input order, and nothing for any other line. */
  function Records(ls: seq<string>, section: string, parse: string -> Process): (r: seq<Process>)
    decreases |ls|
  {
    if ls == [] then []
    else
      var line := TrimSpace(ls[0]);
      var k := Classify(line, section);
      (if k.PidLine? then [parse(line)] else []) + Records(ls[1..], NextSection(k, section), parse)
  }

  /** No line is ever attached as a continuation: every line is trimmed
      before the tab test. */
  lemma NoContinuation(lines: seq<string>, k: nat, p: Process)
    requires k <= |lines|
    ensures Continuation(lines, k, p) == (p, k)
  {
    if k < |lines| {
      TrimmedNoTab(lines[k]);
    }
  }

  /** One step of the loop as written is one LineStep. */
  lemma AdvanceLine(lines: seq<string>, i: nat, section: string, rep: Report, selfPid: int, parse: string -> Process)
    requires i < |lines|
    ensures var line := TrimSpace(lines[i]);
      Advance(lines, i, section, rep, selfPid, parse)
        == Cursor(i + 1, NextSection(Classify(line, section), section), LineStep(section, rep, line, selfPid, parse))
  {
    var line := TrimSpace(lines[i]);
    AdvanceByLine(Classify(line, section), lines, i, line, section, rep, selfPid, parse);
  }

  lemma AdvanceByLine(k: LineKind, lines: seq<string>, i: nat, line: string, section: string, rep: Report,
                      selfPid: int, parse: string -> Process)
    requires i < |lines| && line == TrimSpace(lines[i])
    ensures AdvanceBy(k, lines, i, line, section, rep, selfPid, parse)
              == Cursor(i + 1, NextSection(k, section), LineStepBy(k, rep, line, selfPid, parse))
  {
    match k
    case PidLine => NoContinuation(lines, i + 1, parse(line));
    case KernelLine => TrimmedNoKernel(lines[i]);
    case _ =>
  }

  /** The loop as written reads each line on its own, and never produces a
      kernel assertion. */
  lemma {:induction false} ParseFromLines(lines: seq<string>, i: nat, section: string, rep: Report, selfPid: int, parse: string -> Process)
    requires i <= |lines|
    ensures ParseFrom(lines, i, section, rep, selfPid, parse) == Lines(lines[i..], section, rep, selfPid, parse)
    decreases |lines| - i
  {
    if i < |lines| {
      var line := TrimSpace(lines[i]);
      assert lines[i..][0] == lines[i] && lines[i..][1..] == lines[i + 1..];
      AdvanceLine(lines, i, section, rep, selfPid, parse);
      ParseFromLines(lines, i + 1, NextSection(Classify(line, section), section), LineStep(section, rep, line, selfPid, parse), selfPid, parse);
    }
  }

  /** Over any run of lines: the records are exactly Records, in order, after
      those already collected. */
  lemma {:induction false} LinesRecords(ls: seq<string>, section: string, rep: Report, selfPid: int, parse: string -> Process)
    ensures Lines(ls, section, rep, selfPid, parse).processes == rep.processes + Records(ls, section, parse)
    decreases |ls|
  {
    if ls != [] {
      var line := TrimSpace(ls[0]);
      var k := Classify(line, section);
      var rep1 := LineStep(section, rep, line, selfPid, parse);
      LinesRecords(ls[1..], NextSection(k, section), rep1, selfPid, parse);
      LineStepRecords(section, rep, line, selfPid, parse);
      LinesUnfold(ls, section, rep, selfPid, parse);
      var pre := if k.PidLine? then [parse(line)] else [];
      AppendAssoc(rep.processes, pre, Records(ls[1..], NextSection(k, section), parse));
    }
  }

  lemma LinesUnfold(ls: seq<string>, section: string, rep: Report, selfPid: int, parse: string -> Process)
    requires ls != []
    ensures var line := TrimSpace(ls[0]);
      var k := Classify(line, section);
      Lines(ls, section, rep, selfPid, parse) == Lines(ls[1..], NextSection(k, section), LineStep(section, rep, line, selfPid, parse), selfPid, parse)
      && Records(ls, section, parse) == (if k.PidLine? then [parse(line)] else []) + Records(ls[1..], NextSection(k, section), parse)
  {
  }

  /** The kernel list never grows. */
  lemma {:induction false} LinesKernel(ls: seq<string>, section: string, rep: Report, selfPid: int, parse: string -> Process)
    ensures Lines(ls, section, rep, selfPid, parse).kernel == rep.kernel
    decreases |ls|
  {
    if ls != [] {
      var line := TrimSpace(ls[0]);
      var k := Classify(line, section);
      var rep1 := LineStep(section, rep, line, selfPid, parse);
      LinesKernel(ls[1..], NextSection(k, section), rep1, selfPid, parse);
      LineStepRecords(section, rep, line, selfPid, parse);
    }
  }

  lemma LineStepRecords(section: string, rep: Report, line: string, selfPid: int, parse: string -> Process)
    ensures var r := LineStep(section, rep, line, selfPid, parse);
      r.processes == rep.processes + (if Classify(line, section).PidLine? then [parse(line)] else [])
      && r.kernel == rep.kernel
  {
  }

  /** Before the first section header a line yields nothing; a header line
      switches the section and yields nothing. */
  lemma LineKinds(section: string, rep: Report, line: string, selfPid: int, parse: string -> Process)
    ensures section == "" ==> LineStep(section, rep, line, selfPid, parse) == rep
    ensures Classify(line, section).Header? ==> LineStep(section, rep, line, selfPid, parse) == rep
    ensures Contains(line, SystemHeader) ==> NextSection(Classify(line, section), section) == "system"
  {
  }

  /** The records of the whole output: one per "pid " line of the process
      section, in order; no kernel assertion ever. */
  lemma ParseRecords(output: string, current: Option<Process>, selfPid: int)
    ensures Parse(output, current, selfPid).processes == Records(Split(output, '\n'), "", ProcessLine)
    ensures Parse(output, current, selfPid).kernel == []
  {
    var lines := Split(output, '\n');
    var rep := Report([], NoPower, [], current);
    ParseFromLines(lines, 0, "", rep, selfPid, ProcessLine);
    assert lines[0..] == lines;
    LinesRecords(lines, "", rep, selfPid, ProcessLine);
    LinesKernel(lines, "", rep, selfPid, ProcessLine);
  }

  /** The provider; `currentProcess` survives between runs. */
  class Provider {
    var currentProcess: Option<Process>

    constructor ()
      ensures currentProcess == None
    {
      currentProcess := None;
    }

    /** GetProcessDescription. */
    function GetProcessDescription(p: Process): (r: string)
    {
      ProcessDescription(p)
    }

    /** A "pid " line at `start` and the continuation lines after it: the
        record, and the index of the last line taken (the detail loop's own
        i--, so that the outer loop's i++ lands on the next line). */
    method ReadProcess(lines: seq<string>, start: nat, first: Process) returns (process: Process, i: nat)
      requires start < |lines|
      ensures var c := Continuation(lines, start + 1, first);
        process == c.0 && (i + 1 == c.1 || i == c.1 == |lines|)
    {
      process := first;
      i := start + 1;
      while i < |lines|
        invariant start + 1 <= i <= |lines|
        invariant Continuation(lines, i, process) == Continuation(lines, start + 1, first)
        decreases |lines| - i
      {
        var detail := TrimSpace(lines[i]);
        if !HasPrefix(detail, "\t") {
          i := i - 1;
          break;
        }
        process := ProcessDetail(detail, process);
        i := i + 1;
      }
    }

    /** A "pid " line at `start` whose own fields give `first`: the record
        with its continuation lines appended, remembered when it is this
        program's; `i` is left on the last line read. */
    method ReadRecord(lines: seq<string>, start: nat, first: Process, processes0: seq<Process>,
                      powerState: PowerState, kernelAssertions: seq<KernelAssertion>, selfPid: int)
      returns (i: nat, processes: seq<Process>)
      requires start < |lines|
      modifies this
      ensures var c := Continuation(lines, start + 1, first);
        Report(processes, powerState, kernelAssertions, currentProcess)
          == AddRecord(Report(processes0, powerState, kernelAssertions, old(currentProcess)), c.0, selfPid)
        && (i + 1 == c.1 || i == c.1 == |lines|)
    {
      var process;
      process, i := ReadProcess(lines, start, first);
      processes := processes0 + [process];
      if process.pid == selfPid {
        currentProcess := Some(process);
      }
    }

    /** One pass of the loop body, the loop's i++ included: the state it
        leaves is the Advance of the state it found, except that a
        continuation run reaching the last line leaves i one past the end. */
    method ReadLine(lines: seq<string>, i0: nat, section0: string, processes0: seq<Process>,
                    powerState0: PowerState, kernel0: seq<KernelAssertion>, selfPid: int)
      returns (i: nat, section: string, processes: seq<Process>, powerState: PowerState,
               kernelAssertions: seq<KernelAssertion>)
      requires i0 < |lines|
      modifies this
      ensures var c := Advance(lines, i0, section0, Report(processes0, powerState0, kernel0, old(currentProcess)), selfPid, ProcessLine);
        section == c.section && Report(processes, powerState, kernelAssertions, currentProcess) == c.rep
        && (i == c.next || (c.next == |lines| && i == |lines| + 1))
    {
      i, section, processes, powerState, kernelAssertions := i0, section0, processes0, powerState0, kernel0;
      ghost var rep := Report(processes, powerState, kernelAssertions, currentProcess);
      var line := TrimSpace(lines[i]);
      var k := Classify(line, section);
      ghost var adv := AdvanceBy(k, lines, i, line, section, rep, selfPid, ProcessLine);
      assert adv == Advance(lines, i, section, rep, selfPid, ProcessLine);
      if k.Blank? {
        i := i + 1;
      } else if k.Header? {
        section := k.section;
        i := i + 1;
      } else {
        assert k == SectionKind(line, section);
        i, processes, powerState, kernelAssertions :=
          ReadSectionLine(lines, i, line, section, processes, powerState, kernelAssertions, selfPid);
      }
    }

    /** The rest of the loop body, for a line that is neither blank nor a
        section header: what it means depends on the section. */
    method ReadSectionLine(lines: seq<string>, i0: nat, line: string, section: string, processes0: seq<Process>,
                           powerState0: PowerState, kernel0: seq<KernelAssertion>, selfPid: int)
      returns (i: nat, processes: seq<Process>, powerState: PowerState, kernelAssertions: seq<KernelAssertion>)
      requires i0 < |lines|
      modifies this
      ensures var c := AdvanceBy(SectionKind(line, section), lines, i0, line, section,
                                 Report(processes0, powerState0, kernel0, old(currentProcess)), selfPid, ProcessLine);
        section == c.section && Report(processes, powerState, kernelAssertions, currentProcess) == c.rep
        && (i == c.next || (c.next == |lines| && i == |lines| + 1))
    {
      i, processes, powerState, kernelAssertions := i0, processes0, powerState0, kernel0;
      ghost var rep := Report(processes, powerState, kernelAssertions, currentProcess);
      ghost var adv := AdvanceBy(SectionKind(line, section), lines, i, line, section, rep, selfPid, ProcessLine);
      if section == "system" {
        assert adv == Cursor(i + 1, section, rep.(power := SystemAssertion(line, powerState)));
        powerState := SystemAssertion(line, powerState);
      } else if section == "process" {
        if HasPrefix(line, "pid ") {
          assert adv == AdvanceBy(PidLine, lines, i, line, section, rep, selfPid, ProcessLine);
          i, processes := ReadRecord(lines, i, ProcessLine(line), processes, powerState, kernelAssertions, selfPid);
        } else {
          assert adv == Cursor(i + 1, section, rep);
        }
      } else if section == "kernel" {
        var ka := ParseKernelAssertion(line);
        assert adv == Cursor(i + 1, section, if ka.Some? then rep.(kernel := kernelAssertions + [ka.value]) else rep);
        if ka.Some? {
          kernelAssertions := kernelAssertions + [ka.value];
        }
      } else {
        assert adv == Cursor(i + 1, section, rep);
      }
      i := i + 1;
    }

    /** GetPreventSleepProcesses over the command output (`None` when pmset failed). */
    method GetPreventSleepProcesses(output: Option<string>, selfPid: int)
      returns (r: Result<(seq<Process>, PowerState, seq<KernelAssertion>)>)
      modifies this
      ensures output.None? ==> r.Err? && currentProcess == old(currentProcess)
      ensures output.Some? ==>
        var rep := Parse(output.value, old(currentProcess), selfPid);
        r == Ok((rep.processes, rep.power, rep.kernel)) && currentProcess == rep.current
    {
      if output.None? {
        return Err("pmset failed");
      }
      var lines := Split(output.value, '\n');
      var processes: seq<Process> := [];
      var powerState := NoPower;
      var kernelAssertions: seq<KernelAssertion> := [];
      var section := "";
      ghost var goal := Parse(output.value, old(currentProcess), selfPid);
      var i := 0;
      while i < |lines|
        invariant 0 <= i <= |lines| + 1
        invariant Remaining(lines, i, section, Report(processes, powerState, kernelAssertions, currentProcess), selfPid, ProcessLine) == goal
        decreases |lines| + 1 - i
      {
        RemainingAdvance(lines, i, section, Report(processes, powerState, kernelAssertions, currentProcess), selfPid, ProcessLine);
        i, section, processes, powerState, kernelAssertions :=
          ReadLine(lines, i, section, processes, powerState, kernelAssertions, selfPid);
      }
      return Ok((processes, powerState, kernelAssertions));
    }
  }
}
