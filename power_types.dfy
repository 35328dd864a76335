/** The records the power-assertion parsers produce, and the helpers the
    platforms share: the detail text shown for a record, and the
    description of a record's type on linux and windows. */
module PowerTypes {
  import opened GoText

  /** PreventSleepProcess: one program that keeps the machine awake. */
  datatype Process = Process(
    pid: int,
    name: string,
    reason: string,
    kind: string,       // the assertion type
    details: string,
    duration: string)

  const EmptyProcess: Process := Process(0, "", "", "", "", "")

  /** SystemPowerState: the system-wide assertion flags. */
  datatype PowerState = PowerState(
    preventSystemSleep: bool,
    preventUserIdle: bool,
    preventDisplaySleep: bool,
    backgroundActivity: bool,
    externalDevice: bool,
    networkActivity: bool)

  const NoPower: PowerState := PowerState(false, false, false, false, false, false)

  /** KernelPowerAssertion. */
  datatype KernelAssertion = KernelAssertion(
    id: int,
    level: int,
    kind: string,
    description: string,
    owner: string,
    createTime: string,
    modTime: string)

  const EmptyKernel: KernelAssertion := KernelAssertion(0, 0, "", "", "", "", "")

  const PreventSystemSleep: string := "PreventSystemSleep"
  const PreventUserIdleSystemSleep: string := "PreventUserIdleSystemSleep"
  const PreventDisplaySleep: string := "PreventDisplaySleep"

  const CurrentProcessName: string := "当前进程"
  const NoDetails: string := "无详细信息"
  const UnknownType: string := "未知类型"

  /** GetProcessDetailInfo, shared shape: the record of this program shows
      its details verbatim; otherwise the details with `pat` replaced by
      `rep` and white space collapsed, else the reason, else a fixed text. */
  function DetailInfo(p: Process, pat: string, rep: string): (r: string)
    requires pat != []
  {
    if p.name == CurrentProcessName then p.details
    else if p.details != "" then Collapse(ReplaceAll(p.details, pat, rep))
    else if p.reason != "" then p.reason
    else NoDetails
  }

  /** The cases of the detail text; a cleaned text has single blanks
      between words, no other white space, and the words of the details
      after the replacement, in order. */
  lemma DetailInfoCases(p: Process, pat: string, rep: string)
    requires pat != []
    ensures p.name == CurrentProcessName ==> DetailInfo(p, pat, rep) == p.details
    ensures p.name != CurrentProcessName && p.details != "" ==>
      Normalized(DetailInfo(p, pat, rep)) && Fields(DetailInfo(p, pat, rep)) == Fields(ReplaceAll(p.details, pat, rep))
    ensures p.name != CurrentProcessName && p.details == "" && p.reason != "" ==> DetailInfo(p, pat, rep) == p.reason
    ensures p.name != CurrentProcessName && p.details == "" && p.reason == "" ==> DetailInfo(p, pat, rep) == NoDetails
  {
    if p.name != CurrentProcessName && p.details != "" {
      CollapseNormalized(ReplaceAll(p.details, pat, rep));
      CollapseKeepsWords(ReplaceAll(p.details, pat, rep));
    }
  }

  /** GetProcessDescription on linux and windows. */
  function TypeDescription(kind: string): (r: string)
  {
    if kind == PreventDisplaySleep then "防止显示器休眠"
    else if kind == PreventSystemSleep then "防止系统休眠"
    else if kind == PreventUserIdleSystemSleep then "防止系统自动休眠"
    else UnknownType
  }

  /** The three known types get three different descriptions, and every
      other type the unknown-type text. */
  lemma TypeDescriptionCases(kind: string)
    ensures TypeDescription(kind) == UnknownType
            <==> kind !in {PreventDisplaySleep, PreventSystemSleep, PreventUserIdleSystemSleep}
    ensures forall k :: k in {PreventDisplaySleep, PreventSystemSleep, PreventUserIdleSystemSleep} && k != kind
              && kind in {PreventDisplaySleep, PreventSystemSleep, PreventUserIdleSystemSleep}
              ==> TypeDescription(k) != TypeDescription(kind)
  {
  }
}
