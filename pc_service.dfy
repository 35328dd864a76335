/** The bridge's PC service: the configured hosts by name, the status
    reported for a host, the rule that re-sends a wake packet to a host kept
    awake, and the recording of successful wake packets. The reachability
    probe, the clock and the UDP write are parameters. */
module PCService {
  import opened GoText

  const NanosPerMinute: int := 60 * 1000000000
  const ResendAfter: int := 5 * NanosPerMinute
  const WakePacketLength: int := 102

  /** A configured host, and the PCHostInfo built from it. */
  datatype Host = Host(name: string, ip: string, mac: string, monitorPort: int)

  /** PCHostStatus; an empty lastWakeTime is the omitted field. */
  datatype HostStatus = HostStatus(
    name: string,
    isOnline: bool,
    keepAwake: bool,
    lastUpdate: string,
    lastWakeTime: string)

  /** The host map after storing the configured hosts in order. */
  function HostsByName(hosts: seq<Host>): map<string, Host>
  {
    if hosts == [] then map[]
    else HostsByName(hosts[..|hosts| - 1])[hosts[|hosts| - 1].name := hosts[|hosts| - 1]]
  }

  /** Host i is the last configured host with the name. */
  predicate LastNamed(hosts: seq<Host>, i: int, name: string) {
    0 <= i < |hosts| && hosts[i].name == name
    && forall j :: i < j < |hosts| ==> hosts[j].name != name
  }

  /** Every configured name is known, under the last host with that name. */
  lemma {:induction false} HostsByNameLast(hosts: seq<Host>)
    ensures forall n :: n in HostsByName(hosts) <==> exists i :: 0 <= i < |hosts| && hosts[i].name == n
    ensures forall n :: n in HostsByName(hosts) ==> exists i :: LastNamed(hosts, i, n) && HostsByName(hosts)[n] == hosts[i]
  {
    if hosts != [] {
      var init := hosts[..|hosts| - 1];
      var last := hosts[|hosts| - 1];
      HostsByNameLast(init);
      assert forall i :: 0 <= i < |init| ==> hosts[i] == init[i];
      forall n | n in HostsByName(hosts)
        ensures exists i :: LastNamed(hosts, i, n) && HostsByName(hosts)[n] == hosts[i]
      {
        if n == last.name {
          assert LastNamed(hosts, |hosts| - 1, n);
        } else {
          assert n in HostsByName(init);
          var i :| LastNamed(init, i, n) && HostsByName(init)[n] == init[i];
          assert LastNamed(hosts, i, n);
        }
      }
    }
  }

  /** The re-send rule of GetHostStatus: a host kept awake is sent a packet
      when it has never been woken or the last recorded wake is more than
      five minutes old. */
  predicate ShouldWake(wol: map<string, int>, name: string, keepAwake: bool, now: int) {
    keepAwake && (name !in wol || now - wol[name] > ResendAfter)
  }

  /** After a recorded wake at t, a host kept awake is not sent another
      packet for five minutes, and is sent one at every later request. */
  lemma ResendWindow(wol: map<string, int>, name: string, t: int, now: int)
    ensures !ShouldWake(wol[name := t], name, true, now) <==> now - t <= ResendAfter
    ensures forall keepAwake: bool :: !keepAwake ==> !ShouldWake(wol, name, keepAwake, now)
  {
  }

  class Service {
    var hosts: map<string, Host>           // by name
    var status: map<string, HostStatus>    // last status reported, by name
    var wol: map<string, int>              // last successful wake, by name

    /** NewPCService: the configured hosts by name, a later duplicate name
        replacing an earlier one; nothing reported or woken yet. */
    constructor (cfgHosts: seq<Host>)
      ensures hosts == HostsByName(cfgHosts) && status == map[] && wol == map[]
    {
      var m: map<string, Host> := map[];
      for i := 0 to |cfgHosts|
        invariant m == HostsByName(cfgHosts[..i])
      {
        assert cfgHosts[..i + 1][..i] == cfgHosts[..i];
        var host := cfgHosts[i];
        m := m[host.name := Host(host.name, host.ip, host.mac, host.monitorPort)];
      }
      assert cfgHosts[..|cfgHosts|] == cfgHosts;
      hosts := m;
      status := map[];
      wol := map[];
    }

    /** GetHostStatus. An unknown host is an error and nothing is stored.
        Otherwise the status reports the probe's answer, echoes keepAwake,
        carries the last wake time when one is recorded, and is stored
        under the name; `wake` says whether a wake packet is dispatched.
        `online` is the probe's answer and `format` RFC 3339 formatting. */
    method GetHostStatus(hostName: string, keepAwake: bool, online: bool, now: int, format: int -> string)
      returns (r: Result<HostStatus>, wake: bool)
      modifies this
      ensures hosts == old(hosts) && wol == old(wol)
      ensures hostName !in hosts ==> r.Err? && !wake && status == old(status)
      ensures hostName in hosts ==> r.Ok? && status == old(status)[hostName := r.value]
      ensures r.Ok? ==> r.value.name == hostName && r.value.isOnline == online && r.value.keepAwake == keepAwake
      ensures r.Ok? ==> r.value.lastUpdate == format(now)
      ensures r.Ok? ==> (r.value.lastWakeTime == if hostName in wol then format(wol[hostName]) else "")
      ensures wake <==> hostName in hosts && ShouldWake(wol, hostName, keepAwake, now)
    {
      if hostName !in hosts {
        return Err("host not found: " + hostName), false;
      }
      var st := HostStatus(hostName, online, keepAwake, format(now), "");
      if hostName in wol {
        st := st.(lastWakeTime := format(wol[hostName]));
      }
      wake := false;
      if keepAwake {
        if hostName in wol {
          if now - wol[hostName] > ResendAfter {
            wake := true;
          }
        } else {
          wake := true;
        }
      }
      status := status[hostName := st];
      r := Ok(st);
    }

    /** The end of sendWakePacket: `written` is the byte count of the
        write, None when building the packet, opening the socket or writing
        failed. The wake time is recorded only for a full 102-byte write. */
    method RecordWake(host: Host, written: Option<int>, now: int)
      modifies this
      ensures hosts == old(hosts) && status == old(status)
      ensures written == Some(WakePacketLength) ==> wol == old(wol)[host.name := now]
      ensures written != Some(WakePacketLength) ==> wol == old(wol)
    {
      if written.None? {
        return;
      }
      if written.value != WakePacketLength {
        return;
      }
      wol := wol[host.name := now];
    }
  }
}
