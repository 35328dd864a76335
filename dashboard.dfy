/** The RemoteControl page of the wol dashboard: the per-host refresh
    countdown, the order of the host cards, the "time ago" text, the ports
    column, and the state updates of a data fetch and of unchecking keep
    awake. The React state setters take the previous value and return the
    next one, so each update is a function from the old page state to the
    new one; rendering is left out. */
module Dashboard {
  import opened GoText

  const RefreshInterval: int := 30

  // ---------------------------------------------------------------------
  // The countdown tick

  /** One host's turn in a tick: a positive countdown goes down by one, and
      one that reaches 0 starts over at the refresh interval. */
  function TickHost(m: map<string, int>, h: string): map<string, int>
  {
    if h in m && m[h] > 0 then
      (if m[h] - 1 == 0 then m[h := RefreshInterval] else m[h := m[h] - 1])
    else m
  }

  /** The countdowns after the hosts' turns, in list order. */
  function Ticked(hosts: seq<string>, m: map<string, int>): map<string, int>
  {
    if hosts == [] then m else TickHost(Ticked(hosts[..|hosts| - 1], m), hosts[|hosts| - 1])
  }

  /** The hosts whose countdown ran out during the tick, in list order. */
  function Expired(hosts: seq<string>, m: map<string, int>): seq<string>
  {
    if hosts == [] then []
    else
      var before := Ticked(hosts[..|hosts| - 1], m);
      var h := hosts[|hosts| - 1];
      Expired(hosts[..|hosts| - 1], m) + (if h in before && before[h] == 1 then [h] else [])
  }

  /** Some listed host has a positive countdown. */
  predicate AnyRunning(hosts: seq<string>, m: map<string, int>) {
    exists i :: 0 <= i < |hosts| && hosts[i] in m && m[hosts[i]] > 0
  }

  /** The interval callback of the countdown effect. `fetched` lists the
      hosts whose data is fetched again; the previous map itself is kept
      when no countdown moved. */
  method Tick(hosts: seq<string>, prev: map<string, int>) returns (next: map<string, int>, fetched: seq<string>)
    ensures next == Ticked(hosts, prev) && fetched == Expired(hosts, prev)
    ensures !AnyRunning(hosts, prev) ==> next == prev
  {
    var counts := prev;
    var needsUpdate := false;
    fetched := [];
    for i := 0 to |hosts|
      invariant counts == Ticked(hosts[..i], prev)
      invariant fetched == Expired(hosts[..i], prev)
      invariant needsUpdate <==> AnyRunning(hosts[..i], prev)
    {
      var h := hosts[i];
      TickStep(hosts, i, prev);
      if h in counts && counts[h] > 0 {
        counts := counts[h := counts[h] - 1];
        if counts[h] == 0 {
          fetched := fetched + [h];
          counts := counts[h := RefreshInterval];
        }
        needsUpdate := true;
      }
    }
    assert hosts[..|hosts|] == hosts;
    if needsUpdate {
      next := counts;
    } else {
      TickedUntouched(hosts, prev, "");
      TickedKeys(hosts, prev);
      next := prev;
    }
  }

  /** One host's turn of the tick loop, stated on the prefixes. */
  lemma TickStep(hosts: seq<string>, i: int, m: map<string, int>)
    requires 0 <= i < |hosts|
    ensures Ticked(hosts[..i + 1], m) == TickHost(Ticked(hosts[..i], m), hosts[i])
    ensures var before := Ticked(hosts[..i], m);
      Expired(hosts[..i + 1], m) == Expired(hosts[..i], m) + (if hosts[i] in before && before[hosts[i]] == 1 then [hosts[i]] else [])
    ensures AnyRunning(hosts[..i + 1], m) <==> AnyRunning(hosts[..i], m) || (hosts[i] in m && m[hosts[i]] > 0)
    ensures !AnyRunning(hosts[..i], m) ==> Ticked(hosts[..i], m) == m
  {
    assert hosts[..i + 1][..i] == hosts[..i];
    if !AnyRunning(hosts[..i], m) {
      TickedUntouched(hosts[..i], m, hosts[i]);
    }
    assert hosts[..i + 1][i] == hosts[i];
  }

  /** A tick never adds or removes a host's countdown. */
  lemma {:induction false} TickedKeys(hosts: seq<string>, m: map<string, int>)
    ensures Ticked(hosts, m).Keys == m.Keys
  {
    if hosts != [] {
      TickedKeys(hosts[..|hosts| - 1], m);
    }
  }

  /** A host that is not listed, or whose countdown is missing or not
      positive, keeps its countdown. */
  lemma {:induction false} TickedUntouched(hosts: seq<string>, m: map<string, int>, h: string)
    requires h !in hosts || h !in m || m[h] <= 0 || !AnyRunning(hosts, m)
    ensures h in Ticked(hosts, m) <==> h in m
    ensures h in m ==> Ticked(hosts, m)[h] == m[h]
    ensures !AnyRunning(hosts, m) ==> Ticked(hosts, m) == m
  {
    TickedKeys(hosts, m);
    if hosts != [] {
      var init := hosts[..|hosts| - 1];
      assert forall i :: 0 <= i < |init| ==> init[i] == hosts[i];
      TickedUntouched(init, m, h);
      if !AnyRunning(hosts, m) {
        TickedUntouched(init, m, hosts[|hosts| - 1]);
      }
    }
  }

  /** A countdown in 1..30 stays in 1..30 after any tick. */
  lemma {:induction false} TickedInRange(hosts: seq<string>, m: map<string, int>)
    requires forall h :: h in m ==> 1 <= m[h] <= RefreshInterval
    ensures forall h :: h in Ticked(hosts, m) ==> 1 <= Ticked(hosts, m)[h] <= RefreshInterval
  {
    if hosts != [] {
      TickedInRange(hosts[..|hosts| - 1], m);
    }
  }

  /** A host listed once with countdown v > 0 ends the tick at v - 1, or
      back at 30 when v was 1, and it is fetched exactly in that case. */
  lemma {:induction false} TickedListedOnce(hosts: seq<string>, m: map<string, int>, h: string)
    requires multiset(hosts)[h] == 1 && h in m && m[h] > 0
    ensures h in Ticked(hosts, m)
    ensures Ticked(hosts, m)[h] == if m[h] == 1 then RefreshInterval else m[h] - 1
    ensures h in Expired(hosts, m) <==> m[h] == 1
  {
    var init := hosts[..|hosts| - 1];
    var last := hosts[|hosts| - 1];
    assert hosts == init + [last];
    if last == h {
      assert h !in init by {
        assert multiset(hosts) == multiset(init) + multiset{last};
      }
      TickedUntouched(init, m, h);
      ExpiredOnlyListed(init, m, h);
    } else {
      assert multiset(hosts) == multiset(init) + multiset{last};
      TickedListedOnce(init, m, h);
    }
  }

  /** Only listed hosts are fetched. */
  lemma {:induction false} ExpiredOnlyListed(hosts: seq<string>, m: map<string, int>, h: string)
    requires h !in hosts
    ensures h !in Expired(hosts, m)
  {
    if hosts != [] {
      var init := hosts[..|hosts| - 1];
      assert h !in init by { assert forall i :: 0 <= i < |init| ==> init[i] == hosts[i]; }
      ExpiredOnlyListed(init, m, h);
    }
  }

  // ---------------------------------------------------------------------
  // The order of the host cards

  /** A host with no status counts as offline. */
  predicate Online(statuses: map<string, HostStatus>, name: string) {
    name in statuses && statuses[name].isOnline
  }

  /** The comparator of sortedHosts; `localeCompare` stands for
      String.prototype.localeCompare. */
  function Compare(a: string, b: string, statuses: map<string, HostStatus>, localeCompare: (string, string) -> int): (r: int)
    ensures Online(statuses, a) && !Online(statuses, b) ==> r < 0
    ensures !Online(statuses, a) && Online(statuses, b) ==> r > 0
    ensures Online(statuses, a) == Online(statuses, b) ==> r == localeCompare(a, b)
  {
    var onlineA := Online(statuses, a);
    var onlineB := Online(statuses, b);
    if onlineA && !onlineB then -1
    else if !onlineA && onlineB then 1
    else localeCompare(a, b)
  }

  /** In a list ordered by the comparator every online host comes before
      every offline one. */
  lemma {:induction false} OnlineFirst(hs: seq<string>, statuses: map<string, HostStatus>, localeCompare: (string, string) -> int)
    requires forall i :: 0 <= i < |hs| - 1 ==> Compare(hs[i], hs[i + 1], statuses, localeCompare) <= 0
    ensures forall i, j :: 0 <= i < j < |hs| && Online(statuses, hs[j]) ==> Online(statuses, hs[i])
  {
    if |hs| > 1 {
      var rest := hs[1..];
      assert forall i :: 0 <= i < |rest| ==> rest[i] == hs[i + 1];
      OnlineFirst(rest, statuses, localeCompare);
      forall j | 0 < j < |hs| && Online(statuses, hs[j])
        ensures Online(statuses, hs[0])
      {
        assert Online(statuses, hs[1]) by {
          if j > 1 {
            assert rest[j - 1] == hs[j] && rest[0] == hs[1];
          }
        }
      }
    }
  }

  // ---------------------------------------------------------------------
  // formatTimeAgo

  /** formatTimeAgo, with the clock and date parsing reduced to
      milliseconds: `date` is None when the text is not a date, which makes
      every number NaN. Whole seconds are rounded down. */
  function TimeAgo(nowMs: int, date: Option<int>): (r: string)
  {
    match date
    case None => "NaN分钟前"
    case Some(ms) =>
      var seconds := (nowMs - ms) / 1000;
      if seconds < 60 then Itoa(seconds) + "秒前" else Itoa(seconds / 60) + "分钟前"
  }

  /** Under a minute the text is the number of whole seconds, from a minute
      on the number of whole minutes; the number reads back as the value it
      stands for. */
  lemma TimeAgoReads(nowMs: int, ms: int)
    requires MinInt64 <= nowMs - ms <= MaxInt64
    ensures var seconds := (nowMs - ms) / 1000;
      var r := TimeAgo(nowMs, Some(ms));
      (seconds < 60 ==> |r| > 2 && r[|r| - 2..] == "秒前" && Atoi(r[..|r| - 2]) == Some(seconds))
      && (seconds >= 60 ==> |r| > 3 && r[|r| - 3..] == "分钟前" && Atoi(r[..|r| - 3]) == Some(seconds / 60)
                            && seconds / 60 * 60 <= seconds < seconds / 60 * 60 + 60)
  {
    var seconds := (nowMs - ms) / 1000;
    var r := TimeAgo(nowMs, Some(ms));
    if seconds < 60 {
      AtoiItoa(seconds);
      assert r[..|r| - 2] == Itoa(seconds);
    } else {
      AtoiItoa(seconds / 60);
      assert r[..|r| - 3] == Itoa(seconds / 60);
    }
  }

  // ---------------------------------------------------------------------
  // The ports column

  /** The ports of one forwarding client: all of them when there are at
      most three, otherwise the first two and the total count. */
  function PortsText(ports: seq<string>): (r: string)
    ensures |ports| <= 3 ==> forall i :: 0 <= i < |ports| ==> Contains(r, ports[i])
    ensures |ports| > 3 ==> HasPrefix(r, ports[0] + ", " + ports[1] + "... (")
    ensures |ports| > 3 ==> var tail := Itoa(|ports|) + "个)"; |r| >= |tail| && r[|r| - |tail|..] == tail
  {
    if |ports| <= 3 then
      JoinContains(ports, ", ");
      Join(ports, ", ")
    else
      assert Join(ports[..2], ", ") == ports[0] + ", " + ports[1] by {
        assert ports[..2][1..] == [ports[1]];
      }
      Join(ports[..2], ", ") + "... (" + Itoa(|ports|) + "个)"
  }

  /** Every part occurs in the joined text. */
  lemma {:induction false} JoinContains(parts: seq<string>, sep: string)
    ensures forall i :: 0 <= i < |parts| ==> Contains(Join(parts, sep), parts[i])
  {
    if |parts| > 1 {
      JoinContains(parts[1..], sep);
      var j := Join(parts, sep);
      var off := |parts[0]| + |sep|;
      assert j == parts[0] + sep + Join(parts[1..], sep);
      assert OccursAt(j, parts[0], 0);
      forall i | 1 <= i < |parts|
        ensures Contains(j, parts[i])
      {
        assert parts[1..][i - 1] == parts[i];
        var k :| 0 <= k <= |Join(parts[1..], sep)| - |parts[i]| && OccursAt(Join(parts[1..], sep), parts[i], k);
        assert j[off + k..off + k + |parts[i]|] == Join(parts[1..], sep)[k..k + |parts[i]|];
        assert OccursAt(j, parts[i], off + k);
      }
    } else if |parts| == 1 {
      assert OccursAt(Join(parts, sep), parts[0], 0);
    }
  }

  // ---------------------------------------------------------------------
  // fetchHostData and handleKeepAwakeChange

  /** PCHostStatus as the page keeps it; `lastWakeTime` may be absent. */
  datatype HostStatus = HostStatus(isOnline: bool, keepAwake: bool, lastWakeTime: Option<string>)

  /** What one request of fetchHostData delivered. */
  datatype Reply<T> = Failed | Null | Value(value: T)

  /** The per-host state of the page. Clients and channels are the lists
      the server returned, opaque here. */
  datatype Page<C, F> = Page(
    statuses: map<string, HostStatus>,
    clients: map<string, seq<C>>,
    channels: map<string, seq<F>>,
    countdowns: map<string, int>,
    refreshing: map<string, bool>,
    loading: map<string, bool>)

  /** The state updates of fetchHostData for one host: each reply that
      arrived is stored (a null status is ignored, null lists become
      empty), the countdown restarts only when all three succeeded, and
      the refreshing and loading flags are cleared in every case. */
  function Fetched<C, F>(p: Page<C, F>, host: string, status: Reply<HostStatus>,
                         clients: Reply<seq<C>>, channels: Reply<seq<F>>): (r: Page<C, F>)
    ensures host in r.refreshing && !r.refreshing[host] && host in r.loading && !r.loading[host]
    ensures !status.Failed? && !clients.Failed? && !channels.Failed? ==>
            r.countdowns == p.countdowns[host := RefreshInterval]
    ensures status.Failed? || clients.Failed? || channels.Failed? ==> r.countdowns == p.countdowns
    ensures status.Value? ==> r.statuses == p.statuses[host := status.value]
    ensures !status.Value? ==> r.statuses == p.statuses
    ensures clients.Null? ==> host in r.clients && r.clients[host] == []
    ensures forall h :: h != host ==>
      (h in r.statuses <==> h in p.statuses) && (h in r.statuses ==> r.statuses[h] == p.statuses[h])
      && (h in r.countdowns <==> h in p.countdowns) && (h in r.countdowns ==> r.countdowns[h] == p.countdowns[h])
      && (h in r.refreshing <==> h in p.refreshing) && (h in r.refreshing ==> r.refreshing[h] == p.refreshing[h])
  {
    var statuses := if status.Value? then p.statuses[host := status.value] else p.statuses;
    var cl := match clients
      case Failed => p.clients
      case Null => p.clients[host := []]
      case Value(v) => p.clients[host := v];
    var ch := match channels
      case Failed => p.channels
      case Null => p.channels[host := []]
      case Value(v) => p.channels[host := v];
    var allOk := !status.Failed? && !clients.Failed? && !channels.Failed?;
    var countdowns := if allOk then p.countdowns[host := RefreshInterval] else p.countdowns;
    Page(statuses, cl, ch, countdowns, p.refreshing[host := false], p.loading[host := false])
  }

  /** Unchecking keep awake: only that host's keepAwake becomes false. A
      host without a status gets one holding just keepAwake, which reads as
      offline. */
  function Unchecked<C, F>(p: Page<C, F>, host: string): (r: Page<C, F>)
    ensures host in r.statuses && !r.statuses[host].keepAwake
    ensures host in p.statuses ==> r.statuses[host] == p.statuses[host].(keepAwake := false)
    ensures host !in p.statuses ==> !Online(r.statuses, host)
    ensures r.statuses.Keys == p.statuses.Keys + {host}
    ensures forall h :: h in p.statuses && h != host ==> r.statuses[h] == p.statuses[h]
    ensures r.(statuses := p.statuses) == p
  {
    var s := if host in p.statuses then p.statuses[host].(keepAwake := false) else HostStatus(false, false, None);
    p.(statuses := p.statuses[host := s])
  }
}
