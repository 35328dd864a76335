/** The TCP forwarding service of the wol server: channels built from the
    forwarding rules, the per-channel client records, a global count of
    open connections, the per-IP aggregation shown by GetHostChannels, and
    the bounded wake-and-wait of a connection to an offline host. Sockets
    and the copying of data are left out; a connection is its start and
    its end. */
module WolForward {
  import opened GoText
  import opened ForwardTypes

  const DefaultWakeInterval: int := 120
  const DefaultRetryCount: int := 1
  const DefaultWakeTimeout: int := 10

  /** AggregatedClient: the connections of one client IP. */
  datatype Aggregated = Aggregated(ip: string, ports: seq<string>, status: string, lastActive: string)

  /** ForwardChannel as the wol server keeps it. */
  datatype Channel = Channel(
    id: string,
    servicePort: int,
    targetHost: string,
    targetPort: int,
    status: string,
    lastActive: string,
    clients: seq<Aggregated>,
    activeCount: int)

  /** The channel NewForwardService builds for a rule: inactive, no
      clients, identified by the rule's channel ID. */
  function NewChannel(r: ForwardRule): (c: Channel)
  {
    Channel(ChannelId(r), r.servicePort, r.targetHost, r.targetPort, Inactive, "", [], 0)
  }

  /** The channel map after storing the rules in order: a later rule with
      the same service port replaces an earlier one. */
  function Channels(rules: seq<ForwardRule>): map<int, Channel>
  {
    if rules == [] then map[]
    else Channels(rules[..|rules| - 1])[rules[|rules| - 1].servicePort := NewChannel(rules[|rules| - 1])]
  }

  /** Rule i is the last rule with service port p. */
  predicate LastWith(rules: seq<ForwardRule>, i: int, p: int) {
    0 <= i < |rules| && rules[i].servicePort == p
    && forall j :: i < j < |rules| ==> rules[j].servicePort != p
  }

  /** Exactly the service ports of the rules have a channel. */
  lemma {:induction false} ChannelsKeys(rules: seq<ForwardRule>)
    ensures forall p :: p in Channels(rules) <==> exists i :: 0 <= i < |rules| && rules[i].servicePort == p
  {
    if rules != [] {
      var init := rules[..|rules| - 1];
      ChannelsKeys(init);
      assert forall i :: 0 <= i < |init| ==> rules[i] == init[i];
    }
  }

  /** The channel of a port is built from the last rule with that port,
      so it starts inactive with that rule's ID. */
  lemma {:induction false} ChannelsLast(rules: seq<ForwardRule>)
    ensures forall p :: p in Channels(rules) ==>
      exists i :: LastWith(rules, i, p) && Channels(rules)[p] == NewChannel(rules[i])
  {
    forall p | p in Channels(rules)
      ensures exists i :: LastWith(rules, i, p) && Channels(rules)[p] == NewChannel(rules[i])
    {
      var i := ChannelLastAt(rules, p);
    }
  }

  /** ChannelsLast for one port: the index of the rule its channel comes from. */
  lemma {:induction false} ChannelLastAt(rules: seq<ForwardRule>, p: int) returns (i: int)
    requires p in Channels(rules)
    ensures LastWith(rules, i, p) && Channels(rules)[p] == NewChannel(rules[i])
  {
    assert rules != [];
    var init := rules[..|rules| - 1];
    var last := rules[|rules| - 1];
    if p == last.servicePort {
      i := |rules| - 1;
      ChannelsLastRule(rules);
    } else {
      ChannelsEarlierRule(rules, p);
      i := ChannelLastAt(init, p);
      assert rules == init + [last];
      LastWithSnoc(init, last, i, p);
      assert rules[i] == init[i];
    }
  }

  /** The last rule's port maps to its channel, and it is the last rule with that port. */
  lemma ChannelsLastRule(rules: seq<ForwardRule>)
    requires rules != []
    ensures var last := rules[|rules| - 1];
      last.servicePort in Channels(rules) && Channels(rules)[last.servicePort] == NewChannel(last)
      && LastWith(rules, |rules| - 1, last.servicePort)
  {
  }

  /** Any other port keeps the channel the earlier rules gave it. */
  lemma ChannelsEarlierRule(rules: seq<ForwardRule>, p: int)
    requires rules != [] && p != rules[|rules| - 1].servicePort && p in Channels(rules)
    ensures var init := rules[..|rules| - 1];
      p in Channels(init) && Channels(rules)[p] == Channels(init)[p]
  {
  }

  /** A later rule with another port leaves the last rule with p in place. */
  lemma LastWithSnoc(rules: seq<ForwardRule>, r: ForwardRule, i: int, p: int)
    requires LastWith(rules, i, p) && r.servicePort != p
    ensures LastWith(rules + [r], i, p)
  {
    var s := rules + [r];
    assert s[i] == rules[i];
    forall j | i < j < |s| ensures s[j].servicePort != p {
      if j < |rules| { assert s[j] == rules[j]; }
    }
  }

  // ---------------------------------------------------------------------
  // aggregateClients

  /** The position of the aggregate for ip, or -1: the lookup in clientMap. */
  function IndexOfIp(aggs: seq<Aggregated>, ip: string): (k: int)
    ensures -1 <= k < |aggs|
    ensures k >= 0 ==> aggs[k].ip == ip
    ensures k < 0 ==> forall i :: 0 <= i < |aggs| ==> aggs[i].ip != ip
  {
    if aggs == [] then -1
    else if aggs[|aggs| - 1].ip == ip then |aggs| - 1
    else IndexOfIp(aggs[..|aggs| - 1], ip)
  }

  /** One client added to the aggregates: its port is appended to the
      aggregate of its IP, whose time becomes the later of the two, or a
      new aggregate is made from it. */
  function AddClient(aggs: seq<Aggregated>, c: ChannelClient): seq<Aggregated>
  {
    var k := IndexOfIp(aggs, c.ip);
    if k >= 0 then
      var a := aggs[k];
      aggs[k := a.(ports := a.ports + [c.port],
                   lastActive := if StrLess(a.lastActive, c.lastActive) then c.lastActive else a.lastActive)]
    else aggs + [Aggregated(c.ip, [c.port], c.status, c.lastActive)]
  }

  /** The aggregates of the clients in visiting order, in the order their
      IPs were first seen. */
  function Aggregate(cs: seq<ChannelClient>): seq<Aggregated>
  {
    if cs == [] then [] else AddClient(Aggregate(cs[..|cs| - 1]), cs[|cs| - 1])
  }

  /** aggregateClients over the records as Range visits them. */
  method AggregateClients(cs: seq<ChannelClient>) returns (aggs: seq<Aggregated>)
    ensures aggs == Aggregate(cs)
  {
    aggs := [];
    for i := 0 to |cs|
      invariant aggs == Aggregate(cs[..i])
    {
      assert cs[..i + 1][..i] == cs[..i];
      var c := cs[i];
      var k := IndexOfIp(aggs, c.ip);
      if k >= 0 {
        var a := aggs[k];
        var last := a.lastActive;
        if StrLess(a.lastActive, c.lastActive) {
          last := c.lastActive;
        }
        aggs := aggs[k := a.(ports := a.ports + [c.port], lastActive := last)];
      } else {
        aggs := aggs + [Aggregated(c.ip, [c.port], c.status, c.lastActive)];
      }
    }
    assert cs[..|cs|] == cs;
  }

  /** The ports of the clients with the given IP, in visiting order. */
  function PortsOf(cs: seq<ChannelClient>, ip: string): seq<string>
  {
    if cs == [] then []
    else PortsOf(cs[..|cs| - 1], ip) + (if cs[|cs| - 1].ip == ip then [cs[|cs| - 1].port] else [])
  }

  predicate DistinctIps(aggs: seq<Aggregated>) {
    forall i, j :: 0 <= i < j < |aggs| ==> aggs[i].ip != aggs[j].ip
  }

  predicate HasIp(aggs: seq<Aggregated>, ip: string) {
    exists i :: 0 <= i < |aggs| && aggs[i].ip == ip
  }

  /** What an aggregate says about the clients: all ports of its IP, the
      status of the first client seen with it, and the latest time among
      them in Go's string order. */
  predicate Summarises(a: Aggregated, cs: seq<ChannelClient>) {
    a.ports == PortsOf(cs, a.ip)
    && (exists i :: 0 <= i < |cs| && cs[i].ip == a.ip && a.status == cs[i].status
          && forall j :: 0 <= j < i ==> cs[j].ip != a.ip)
    && (exists i :: 0 <= i < |cs| && cs[i].ip == a.ip && a.lastActive == cs[i].lastActive)
    && (forall i :: 0 <= i < |cs| && cs[i].ip == a.ip ==> !StrLess(a.lastActive, cs[i].lastActive))
  }

  /** No two aggregates share an IP, and every client's IP has one. */
  lemma {:induction false} AggregateIps(cs: seq<ChannelClient>)
    ensures DistinctIps(Aggregate(cs))
    ensures forall j :: 0 <= j < |cs| ==> HasIp(Aggregate(cs), cs[j].ip)
  {
    if cs != [] {
      var init := cs[..|cs| - 1];
      var c := cs[|cs| - 1];
      var prev := Aggregate(init);
      AggregateIps(init);
      var k := IndexOfIp(prev, c.ip);
      var r := Aggregate(cs);
      assert |r| >= |prev|;
      assert forall m :: 0 <= m < |prev| ==> r[m].ip == prev[m].ip;
      forall j | 0 <= j < |cs| ensures HasIp(r, cs[j].ip) {
        if j < |init| {
          assert cs[j] == init[j];
          var m :| 0 <= m < |prev| && prev[m].ip == init[j].ip;
          assert r[m].ip == cs[j].ip;
        } else if k >= 0 {
          assert r[k].ip == c.ip;
        } else {
          assert r[|prev|].ip == c.ip;
        }
      }
    }
  }

  /** Each aggregate summarises the clients of its IP. */
  lemma {:induction false} AggregateSummarises(cs: seq<ChannelClient>)
    ensures forall a :: a in Aggregate(cs) ==> Summarises(a, cs)
  {
    if cs != [] {
      var init := cs[..|cs| - 1];
      var c := cs[|cs| - 1];
      var prev := Aggregate(init);
      AggregateSummarises(init);
      AggregateIps(init);
      assert cs == init + [c];
      var k := IndexOfIp(prev, c.ip);
      var r := Aggregate(cs);
      forall a | a in r ensures Summarises(a, cs) {
        var m :| 0 <= m < |r| && r[m] == a;
        if m == k {
          SummarisesExtended(prev[k], init, c);
        } else if m < |prev| {
          assert r[m] == prev[m];
          SummarisesOther(prev[m], init, c);
        } else {
          AggregateIps(init);
          SummarisesNew(init, c);
        }
      }
    }
  }

  lemma SummarisesExtended(a: Aggregated, init: seq<ChannelClient>, c: ChannelClient)
    requires a.ip == c.ip && Summarises(a, init)
    ensures Summarises(a.(ports := a.ports + [c.port],
                          lastActive := if StrLess(a.lastActive, c.lastActive) then c.lastActive else a.lastActive),
                       init + [c])
  {
    var cs := init + [c];
    var b := a.(ports := a.ports + [c.port],
                lastActive := if StrLess(a.lastActive, c.lastActive) then c.lastActive else a.lastActive);
    assert cs[..|cs| - 1] == init;
    var i :| 0 <= i < |init| && init[i].ip == a.ip && a.status == init[i].status
              && forall j :: 0 <= j < i ==> init[j].ip != a.ip;
    assert cs[i] == init[i];
    forall i | 0 <= i < |cs| && cs[i].ip == b.ip
      ensures !StrLess(b.lastActive, cs[i].lastActive)
    {
      StrLessIrreflexive(b.lastActive);
      if i < |init| {
        assert cs[i] == init[i];
        if StrLess(a.lastActive, c.lastActive) && StrLess(c.lastActive, cs[i].lastActive) {
          StrLessTransitive(a.lastActive, c.lastActive, cs[i].lastActive);
        }
      } else if !StrLess(a.lastActive, c.lastActive) && a.lastActive != c.lastActive {
        StrLessTotal(a.lastActive, c.lastActive);
      }
    }
    if StrLess(a.lastActive, c.lastActive) {
      assert cs[|cs| - 1] == c;
    } else {
      var m :| 0 <= m < |init| && init[m].ip == a.ip && a.lastActive == init[m].lastActive;
      assert cs[m] == init[m];
    }
  }

  lemma SummarisesOther(a: Aggregated, init: seq<ChannelClient>, c: ChannelClient)
    requires a.ip != c.ip && Summarises(a, init)
    ensures Summarises(a, init + [c])
  {
    var cs := init + [c];
    assert cs[..|cs| - 1] == init;
    var i :| 0 <= i < |init| && init[i].ip == a.ip && a.status == init[i].status
              && forall j :: 0 <= j < i ==> init[j].ip != a.ip;
    assert cs[i] == init[i];
    var m :| 0 <= m < |init| && init[m].ip == a.ip && a.lastActive == init[m].lastActive;
    assert cs[m] == init[m];
    forall i | 0 <= i < |cs| && cs[i].ip == a.ip
      ensures !StrLess(a.lastActive, cs[i].lastActive)
    {
      assert cs[i] == init[i];
    }
  }

  lemma {:induction false} SummarisesNew(init: seq<ChannelClient>, c: ChannelClient)
    requires !HasIp(Aggregate(init), c.ip)
    requires forall j :: 0 <= j < |init| ==> HasIp(Aggregate(init), init[j].ip)
    ensures Summarises(Aggregated(c.ip, [c.port], c.status, c.lastActive), init + [c])
  {
    var cs := init + [c];
    assert cs[..|cs| - 1] == init;
    assert forall j :: 0 <= j < |init| ==> init[j].ip != c.ip;
    NoPorts(init, c.ip);
    assert cs[|init|] == c;
    StrLessIrreflexive(c.lastActive);
  }

  lemma {:induction false} NoPorts(cs: seq<ChannelClient>, ip: string)
    requires forall j :: 0 <= j < |cs| ==> cs[j].ip != ip
    ensures PortsOf(cs, ip) == []
  {
    if cs != [] {
      NoPorts(cs[..|cs| - 1], ip);
    }
  }

  /** The number of ports over all aggregates. */
  function TotalPorts(aggs: seq<Aggregated>): nat
  {
    if aggs == [] then 0 else TotalPorts(aggs[..|aggs| - 1]) + |aggs[|aggs| - 1].ports|
  }

  lemma {:induction false} TotalPortsUpdate(aggs: seq<Aggregated>, k: int, a: Aggregated)
    requires 0 <= k < |aggs|
    ensures TotalPorts(aggs[k := a]) == TotalPorts(aggs) - |aggs[k].ports| + |a.ports|
  {
    var u := aggs[k := a];
    if k < |aggs| - 1 {
      assert u[..|u| - 1] == aggs[..|aggs| - 1][k := a];
      TotalPortsUpdate(aggs[..|aggs| - 1], k, a);
    } else {
      assert u[..|u| - 1] == aggs[..|aggs| - 1];
    }
  }

  /** Every client contributes exactly one port. */
  lemma {:induction false} AggregateTotal(cs: seq<ChannelClient>)
    ensures TotalPorts(Aggregate(cs)) == |cs|
  {
    if cs != [] {
      var init := cs[..|cs| - 1];
      var c := cs[|cs| - 1];
      var prev := Aggregate(init);
      AggregateTotal(init);
      var k := IndexOfIp(prev, c.ip);
      if k >= 0 {
        var a := prev[k];
        TotalPortsUpdate(prev, k, a.(ports := a.ports + [c.port],
          lastActive := if StrLess(a.lastActive, c.lastActive) then c.lastActive else a.lastActive));
      } else {
        var r := prev + [Aggregated(c.ip, [c.port], c.status, c.lastActive)];
        assert r[..|r| - 1] == prev;
      }
    }
  }

  // ---------------------------------------------------------------------
  // Timing settings of the target host

  /** The per-host settings handleConnection reads, when the host is
      configured. */
  datatype HostTiming = HostTiming(wakeTimeout: int, retryCount: int, wakeInterval: int)

  /** The retries after the first packet: the configured count when
      positive, else 1. */
  function RetryCount(t: Option<HostTiming>): (r: int)
    ensures r > 0
    ensures t.Some? && t.value.retryCount > 0 ==> r == t.value.retryCount
  {
    if t.Some? && t.value.retryCount > 0 then t.value.retryCount else DefaultRetryCount
  }

  /** The seconds to wait after each packet: the configured value when
      positive, else 10. */
  function WakeTimeout(t: Option<HostTiming>): (r: int)
    ensures r > 0
    ensures t.Some? && t.value.wakeTimeout > 0 ==> r == t.value.wakeTimeout
  {
    if t.Some? && t.value.wakeTimeout > 0 then t.value.wakeTimeout else DefaultWakeTimeout
  }

  /** The period of the keep-awake ticker, in seconds: the configured
      value when positive, else 120. */
  function WakeInterval(t: Option<HostTiming>): (r: int)
    ensures r > 0
    ensures t.Some? && t.value.wakeInterval > 0 ==> r == t.value.wakeInterval
  {
    if t.Some? && t.value.wakeInterval > 0 then t.value.wakeInterval else DefaultWakeInterval
  }

  /** What handleConnection does before dialling. An unknown target host
      ends the connection at once. An online host is dialled without any
      packet. Otherwise a wake packet is sent and the host awaited, up to
      retryCount more times; `up(k)` says whether the wait after the k-th
      packet saw the host online, and the connection is dropped after the
      last failed wait. */
  method WakeOffline(known: bool, online: bool, timing: Option<HostTiming>, up: nat -> bool)
    returns (packets: nat, connect: bool)
    ensures !known ==> packets == 0 && !connect
    ensures known && online ==> packets == 0 && connect
    ensures known && !online ==> 1 <= packets <= RetryCount(timing) + 1
    ensures known && !online ==> (connect <==> up(packets - 1))
    ensures known && !online ==> forall k: nat :: k < packets - 1 ==> !up(k)
    ensures known && !online && !connect ==> packets == RetryCount(timing) + 1
  {
    if !known {
      return 0, false;
    }
    if online {
      return 0, true;
    }
    var retryCount := RetryCount(timing);
    packets := 0;
    var retry := 0;
    while retry <= retryCount
      invariant 0 <= retry <= retryCount && packets == retry
      invariant forall k: nat :: k < retry ==> !up(k)
      decreases retryCount - retry
    {
      packets := packets + 1;
      if up(retry) {
        return packets, true;
      }
      if retry == retryCount {
        return packets, false;
      }
      retry := retry + 1;
    }
    assert false;
  }

  // ---------------------------------------------------------------------
  // The service

  /** A channel as GetHostChannels leaves it: one targeting the host gets
      the aggregates of its records and the global count, any other is
      left alone. */
  function Refreshed(c: Channel, host: string, clients: map<string, seq<ChannelClient>>, count: int): (r: Channel)
    ensures r.id == c.id && r.targetHost == c.targetHost && r.servicePort == c.servicePort
  {
    if c.targetHost == host then c.(clients := Aggregate(RecordsOf(clients, c.id)), activeCount := count) else c
  }

  /** Each channel is stored under its own service port. */
  predicate KeyedByPort(channels: map<int, Channel>) {
    forall p :: p in channels ==> channels[p].servicePort == p
  }

  /** The Range over the channels in GetHostChannels, on the map's value:
      the channels targeting the host are refreshed and returned, in the
      order Range happens to visit them. */
  method RefreshHost(channels: map<int, Channel>, clients: map<string, seq<ChannelClient>>, count: int, hostName: string)
    returns (m: map<int, Channel>, r: seq<Channel>)
    requires KeyedByPort(channels)
    ensures m.Keys == channels.Keys
    ensures forall p :: p in m ==> m[p] == Refreshed(channels[p], hostName, clients, count)
    ensures forall c :: c in r <==> exists p :: p in channels && channels[p].targetHost == hostName && c == m[p]
    ensures forall i, j :: 0 <= i < j < |r| ==> r[i].servicePort != r[j].servicePort
  {
    m := channels;
    var todo := channels.Keys;
    ghost var seen: set<int> := {};
    r := [];
    while todo != {}
      invariant todo <= channels.Keys && m.Keys == channels.Keys
      invariant seen == channels.Keys - todo
      invariant forall p :: p in m ==>
        m[p] == if p in todo then channels[p] else Refreshed(channels[p], hostName, clients, count)
      invariant forall c :: c in r <==> exists p :: p in seen && channels[p].targetHost == hostName && c == m[p]
      invariant forall i :: 0 <= i < |r| ==> r[i].servicePort in seen
      invariant forall i, j :: 0 <= i < j < |r| ==> r[i].servicePort != r[j].servicePort
      decreases todo
    {
      NonEmpty(todo);
      var p :| p in todo;
      var ch := m[p];
      if ch.targetHost == hostName {
        var aggs := AggregateClients(RecordsOf(clients, ch.id));
        ch := ch.(clients := aggs, activeCount := count);
        m := m[p := ch];
        r := r + [ch];
      }
      todo := todo - {p};
      seen := seen + {p};
    }
  }

  /** GetChannels: every stored channel, once each, in Range's order. */
  method ListChannels(channels: map<int, Channel>) returns (r: seq<Channel>)
    requires KeyedByPort(channels)
    ensures forall c :: c in r <==> exists p :: p in channels && c == channels[p]
    ensures forall i, j :: 0 <= i < j < |r| ==> r[i].servicePort != r[j].servicePort
  {
    var todo := channels.Keys;
    r := [];
    while todo != {}
      invariant todo <= channels.Keys
      invariant forall c :: c in r <==> exists p :: p in channels && p !in todo && c == channels[p]
      invariant forall i :: 0 <= i < |r| ==> r[i].servicePort in channels && r[i].servicePort !in todo
      invariant forall i, j :: 0 <= i < j < |r| ==> r[i].servicePort != r[j].servicePort
      decreases todo
    {
      NonEmpty(todo);
      var p :| p in todo;
      r := r + [channels[p]];
      todo := todo - {p};
    }
  }

  class ForwardService {
    var channels: map<int, Channel>                       // by service port
    var channelClients: map<string, seq<ChannelClient>>   // by channel ID
    var activeCount: int                                  // open connections, all channels
    ghost var open: nat                                   // connections started and not ended

    ghost predicate Valid()
      reads this
    {
      activeCount == open
      && KeyedByPort(channels)
      && forall id :: id in channelClients ==> UniqueIds(channelClients[id])
    }

    /** NewForwardService: one inactive channel per rule, stored by service
        port in rule order; no clients and no open connection. */
    constructor (rules: seq<ForwardRule>)
      ensures Valid()
      ensures channels == Channels(rules) && channelClients == map[] && activeCount == 0
    {
      var m: map<int, Channel> := map[];
      for i := 0 to |rules|
        invariant m == Channels(rules[..i])
      {
        assert rules[..i + 1][..i] == rules[..i];
        var fc := rules[i];
        m := m[fc.servicePort := NewChannel(fc)];
      }
      assert rules[..|rules|] == rules;
      ChannelsLast(rules);
      channels := m;
      channelClients := map[];
      activeCount := 0;
      open := 0;
    }

    /** The start of handleConnection for a connection from ip:clientPort:
        the global count goes up and is copied into the channel, which
        becomes active with the connection time, and the client's record is
        stored under the channel's ID. */
    method ConnectionStart(port: int, ip: string, clientPort: int, now: string)
      modifies this
      requires Valid() && port in channels
      ensures Valid() && open == old(open) + 1
      ensures activeCount == old(activeCount) + 1
      ensures channels == old(channels)[port := old(channels)[port].(activeCount := activeCount, status := Active, lastActive := now)]
      ensures var id := old(channels)[port].id;
        var before := if id in old(channelClients) then old(channelClients)[id] else [];
        channelClients == old(channelClients)[id := StoreClient(before, ClientRecord(ip, clientPort, now))]
    {
      activeCount := activeCount + 1;
      open := open + 1;
      var ch := channels[port].(activeCount := activeCount, status := Active, lastActive := now);
      channels := channels[port := ch];
      var before := if ch.id in channelClients then channelClients[ch.id] else [];
      channelClients := channelClients[ch.id := StoreClient(before, ClientRecord(ip, clientPort, now))];
    }

    /** One tick of the connection's updater goroutine: its record, while
        stored, takes the new time. */
    method Touch(port: int, clientId: string, now: string)
      modifies this
      requires Valid() && port in channels
      ensures Valid() && channels == old(channels) && activeCount == old(activeCount) && open == old(open)
      ensures var id := channels[port].id;
        channelClients == if id in old(channelClients)
          then old(channelClients)[id := Touched(old(channelClients)[id], clientId, now)]
          else old(channelClients)
    {
      var id := channels[port].id;
      if id in channelClients {
        var cs := channelClients[id];
        var t := Touched(cs, clientId, now);
        assert UniqueIds(t) by {
          assert forall i :: 0 <= i < |cs| ==> t[i].id == cs[i].id;
        }
        channelClients := channelClients[id := t];
      }
    }

    /** The deferred end of handleConnection: the global count goes down
        and is copied into the channel, which becomes inactive only when no
        connection is open anywhere, and the client record is removed. */
    method ConnectionEnd(port: int, clientId: string)
      modifies this
      requires Valid() && port in channels && open > 0
      ensures Valid() && open == old(open) - 1
      ensures activeCount == old(activeCount) - 1 && activeCount >= 0
      ensures port in channels && channels[port].activeCount == activeCount
      ensures channels[port].status == if activeCount == 0 then Inactive else old(channels)[port].status
      ensures channels == old(channels)[port := channels[port]]
      ensures channels[port] == old(channels)[port].(activeCount := activeCount, status := channels[port].status)
      ensures var id := old(channels)[port].id;
        channelClients == if id in old(channelClients)
          then old(channelClients)[id := DeleteClient(old(channelClients)[id], clientId)]
          else old(channelClients)
    {
      activeCount := activeCount - 1;
      open := open - 1;
      var count := activeCount;
      var ch := channels[port];
      if count == 0 {
        ch := ch.(status := Inactive);
      }
      ch := ch.(activeCount := count);
      channels := channels[port := ch];
      if ch.id in channelClients {
        channelClients := channelClients[ch.id := DeleteClient(channelClients[ch.id], clientId)];
      }
    }

    /** GetHostChannels: exactly the channels targeting the host, each
        refreshed with the aggregates of its current records and the global
        count; the refreshed channels are the stored ones, so the map sees
        the refresh too. */
    method GetHostChannels(hostName: string) returns (r: seq<Channel>)
      modifies this
      requires Valid()
      ensures Valid() && channelClients == old(channelClients) && activeCount == old(activeCount)
      ensures channels.Keys == old(channels).Keys
      ensures forall p :: p in channels ==> channels[p] == Refreshed(old(channels)[p], hostName, channelClients, activeCount)
      ensures forall c :: c in r <==> exists p :: p in old(channels) && old(channels)[p].targetHost == hostName && c == channels[p]
      ensures forall i, j :: 0 <= i < j < |r| ==> r[i].servicePort != r[j].servicePort
    {
      var m;
      m, r := RefreshHost(channels, channelClients, activeCount, hostName);
      channels := m;
    }

    /** GetChannels: every channel once. */
    method GetChannels() returns (r: seq<Channel>)
      requires Valid()
      ensures forall c :: c in r <==> exists p :: p in channels && c == channels[p]
      ensures forall i, j :: 0 <= i < j < |r| ==> r[i].servicePort != r[j].servicePort
    {
      r := ListChannels(channels);
    }

    /** One tick of the cleaner. */
    method Clean(now: int, parse: string -> Option<int>)
      modifies this
      requires Valid()
      ensures Valid() && channels == old(channels) && activeCount == old(activeCount)
      ensures channelClients.Keys == old(channelClients).Keys
      ensures forall id :: id in channelClients ==> channelClients[id] == Fresh(old(channelClients)[id], now, parse)
    {
      var cleaned := CleanClients(channelClients, now, parse);
      forall id | id in cleaned ensures UniqueIds(cleaned[id]) {
        FreshUnique(channelClients[id], now, parse);
      }
      channelClients := cleaned;
    }
  }
}
