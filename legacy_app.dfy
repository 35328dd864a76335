/** The legacy single-host wake server: the status names of its replies,
    the combination of the ping and telnet probes, and the /working handler
    that re-sends a wake packet and re-checks the host at most once a
    minute unless asked to refresh. The probes, the wake command, the clock
    and Duration.String are parameters. */
module LegacyApp {
  import opened GoText

  const NanosPerSecond: int := 1000000000
  const RecheckAfter: int := 60 * NanosPerSecond

  const Online: int := 1
  const Processing: int := 2
  const Error: int := -1

  /** The JSON body sendMsg writes. */
  datatype Reply = Reply(message: string, status: string)

  /** sendMsg's status name: 1, 2 and -1 have a name, any other code the
      empty string. */
  function StatusString(status: int): (r: string)
    ensures r == "online" <==> status == Online
    ensures r == "processing" <==> status == Processing
    ensures r == "error" <==> status == Error
    ensures r == "" <==> status !in {Online, Processing, Error}
  {
    if status == Online then "online"
    else if status == Processing then "processing"
    else if status == Error then "error"
    else ""
  }

  /** The outcome of hostStatus, and whether it dialled the telnet port. */
  datatype Check = Check(status: int, msg: string, telnetTried: bool)

  /** hostStatus for the given probe answers: `ping` is pingIp's answer,
      `telnet` what telnetHost would answer. */
  function HostStatus(host: string, telPort: int, ping: Result<bool>, telnet: Result<bool>): (r: Check)
    ensures r.telnetTried <==> ping == Ok(true)
    ensures ping.Err? ==> r.status == Error && r.msg == "ping host:" + host + " error, " + ping.msg
    ensures ping == Ok(true) && telnet.Err? ==>
      (r.status == Error && r.msg == "telnetHost host:" + host + ":" + Itoa(telPort) + " error, " + telnet.msg)
    ensures r.status == Online <==> ping == Ok(true) && telnet == Ok(true)
    ensures r.status == Processing <==> ping == Ok(false) || (ping == Ok(true) && telnet == Ok(false))
    ensures r.status in {Online, Processing, Error}
  {
    match ping
    case Err(e) => Check(Error, "ping host:" + host + " error, " + e, false)
    case Ok(pingSuccess) =>
      if !pingSuccess then Check(Processing, "sent WOL, waiting Win10 online", false)
      else match telnet
        case Err(e) => Check(Error, "telnetHost host:" + host + ":" + Itoa(telPort) + " error, " + e, true)
        case Ok(telSuccess) =>
          if telSuccess then Check(Online, "Win10 is online", true)
          else Check(Processing, "sent WOL, waiting Win10 online", true)
  }

  /** The throttle of workingHandler: a packet is sent and the host checked
      when more than a minute has passed since the last send, or when the
      refresh parameter is "true" in any letter case. */
  predicate Resends(lastSend: int, now: int, refresh: string) {
    now - lastSend > RecheckAfter || ToLower(refresh) == "true"
  }

  /** "true" is recognised in any mixture of cases. */
  lemma RefreshAnyCase(refresh: string, lastSend: int, now: int)
    requires UpperAscii(refresh) == "TRUE"
    ensures Resends(lastSend, now, refresh)
  {
    ToLowerUpper(refresh);
    assert ToLower("TRUE") == "true";
  }

  /** The status code of a reply built from the cache: 1 and -1 as cached,
      any other code 2. */
  function CachedStatus(cached: int): (r: int)
    ensures r in {Online, Processing, Error}
    ensures cached in {Online, Error} ==> r == cached
    ensures cached !in {Online, Error} ==> r == Processing
  {
    if cached == Online then Online else if cached == Error then Error else Processing
  }

  /** The package-level state of the server. */
  class App {
    var lastSendWolTime: int       // Unix nanoseconds
    var lastCheckHostStatus: int
    var lastCheckMsg: string

    /** The initial values: the Unix epoch, -1 and no message. */
    constructor ()
      ensures lastSendWolTime == 0 && lastCheckHostStatus == Error && lastCheckMsg == ""
    {
      lastSendWolTime := 0;
      lastCheckHostStatus := Error;
      lastCheckMsg := "";
    }

    /** workingHandler. When the throttle allows, the send time becomes now
        whether or not the wake command succeeds; a failed command answers
        with an error and leaves the cached check alone, a successful one
        refreshes the cache from hostStatus. The reply is the cached
        message, marked with the time since the last send when no check was
        made, and the cached status mapped by CachedStatus. `wolErr` is the
        wake command's error, `since` formats a Duration. */
    method WorkingHandler(refresh: string, now: int, macAddr: string, host: string, telPort: int,
                          wolErr: Option<string>, ping: Result<bool>, telnet: Result<bool>,
                          since: int -> string)
      returns (reply: Reply)
      modifies this
      ensures var resend := Resends(old(lastSendWolTime), now, refresh);
        && (resend ==> lastSendWolTime == now)
        && (!resend ==> lastSendWolTime == old(lastSendWolTime))
        && (resend && wolErr.Some? ==>
              reply == Reply("send WOL error, mac:" + macAddr + ", " + wolErr.value, "error")
              && lastCheckHostStatus == old(lastCheckHostStatus) && lastCheckMsg == old(lastCheckMsg))
        && (resend && wolErr.None? ==>
              lastCheckHostStatus == HostStatus(host, telPort, ping, telnet).status
              && lastCheckMsg == HostStatus(host, telPort, ping, telnet).msg
              && reply == Reply(lastCheckMsg, StatusString(CachedStatus(lastCheckHostStatus))))
        && (!resend ==>
              lastCheckHostStatus == old(lastCheckHostStatus) && lastCheckMsg == old(lastCheckMsg)
              && reply == Reply(lastCheckMsg + " (check before " + since(now - old(lastSendWolTime)) + ")",
                                StatusString(CachedStatus(lastCheckHostStatus))))
      ensures reply.status in {"online", "processing", "error"}
    {
      var checked := false;
      var beforeInterval := now - lastSendWolTime;
      if beforeInterval > RecheckAfter || ToLower(refresh) == "true" {
        lastSendWolTime := now;
        if wolErr.Some? {
          return Reply("send WOL error, mac:" + macAddr + ", " + wolErr.value, StatusString(Error));
        }
        var c := HostStatus(host, telPort, ping, telnet);
        lastCheckHostStatus := c.status;
        lastCheckMsg := c.msg;
        checked := true;
      }
      var msg := lastCheckMsg;
      if !checked {
        msg := msg + " (check before " + since(beforeInterval) + ")";
      }
      if lastCheckHostStatus == Online {
        reply := Reply(msg, StatusString(Online));
      } else if lastCheckHostStatus == Error {
        reply := Reply(msg, StatusString(Error));
      } else {
        reply := Reply(msg, StatusString(Processing));
      }
    }
  }
}
