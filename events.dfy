/** The wake-event types of greenwake-guard and their display names. */
module GuardEventType {

  const Wol: string := "wol"
  const Device: string := "device"

  const WolName: string := "网络唤醒包"
  const DeviceName: string := "外部设备活动"
  const UnknownName: string := "未知事件"

  /** EventType.String: each known type has its own name, and every other
      value shares the unknown-event name; the name identifies the type. */
  function Name(t: string): (r: string)
    ensures r in {WolName, DeviceName, UnknownName}
    ensures r == WolName <==> t == Wol
    ensures r == DeviceName <==> t == Device
    ensures r == UnknownName <==> t != Wol && t != Device
  {
    match t
    case "wol" => WolName
    case "device" => DeviceName
    case _ => UnknownName
  }
}

/** The wake-event types of awake and their display names. */
module AwakeEventType {

  const Wol: string := "wol"
  const Keyboard: string := "keyboard"
  const Mouse: string := "mouse"

  const WolName: string := "WOL包"
  const KeyboardName: string := "键盘"
  const MouseName: string := "鼠标"
  const UnknownName: string := "未知"

  /** EventType.String: the three known types have pairwise different
      names, and every other value gets the unknown name. */
  function Name(t: string): (r: string)
    ensures r in {WolName, KeyboardName, MouseName, UnknownName}
    ensures r == WolName <==> t == Wol
    ensures r == KeyboardName <==> t == Keyboard
    ensures r == MouseName <==> t == Mouse
    ensures r == UnknownName <==> t !in {Wol, Keyboard, Mouse}
  {
    match t
    case "wol" => WolName
    case "keyboard" => KeyboardName
    case "mouse" => MouseName
    case _ => UnknownName
  }
}
