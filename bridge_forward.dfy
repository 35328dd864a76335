/** The TCP forwarding service of the bridge: channels built from the
    forwarding rules, the client records of each channel, the per-port
    connection counter activeConn, the wait for an offline host and the
    end-of-connection status update. Sockets and the copying of data are
    left out; a connection is its opening, the decision to dial, and its
    closing. */
module BridgeForward {
  import opened GoText
  import opened ForwardTypes

  /** How long handleConnection waits for a woken host. */
  const WakeWait: int := 10 * NanosPerSecond

  /** ForwardChannel as the bridge keeps it. */
  datatype Channel = Channel(
    id: string,
    servicePort: int,
    targetHost: string,
    targetPort: int,
    status: string,
    lastActive: string,
    clients: seq<ChannelClient>)

  /** The channel NewForwardService builds for a rule: inactive, no
      clients, identified by the rule's channel ID. */
  function NewChannel(r: ForwardRule): Channel
  {
    Channel(ChannelId(r), r.servicePort, r.targetHost, r.targetPort, Inactive, "", [])
  }

  /** The channel map after storing the rules in order. */
  function Channels(rules: seq<ForwardRule>): map<int, Channel>
  {
    if rules == [] then map[]
    else Channels(rules[..|rules| - 1])[rules[|rules| - 1].servicePort := NewChannel(rules[|rules| - 1])]
  }

  /** Rule i is the last rule with service port p. */
  predicate LastWith(rules: seq<ForwardRule>, i: int, p: int) {
    0 <= i < |rules| && rules[i].servicePort == p
    && forall j :: i < j < |rules| ==> rules[j].servicePort != p
  }

  /** Exactly the service ports of the rules have a channel. */
  lemma {:induction false} ChannelsKeys(rules: seq<ForwardRule>)
    ensures forall p :: p in Channels(rules) <==> exists i :: 0 <= i < |rules| && rules[i].servicePort == p
  {
    if rules != [] {
      var init := rules[..|rules| - 1];
      ChannelsKeys(init);
      assert forall i :: 0 <= i < |init| ==> rules[i] == init[i];
    }
  }

  /** The channel of a port is built from the last rule with that port,
      so it starts inactive with that rule's ID. */
  lemma {:induction false} ChannelsLast(rules: seq<ForwardRule>)
    ensures forall p :: p in Channels(rules) ==>
      exists i :: LastWith(rules, i, p) && Channels(rules)[p] == NewChannel(rules[i])
  {
    forall p | p in Channels(rules)
      ensures exists i :: LastWith(rules, i, p) && Channels(rules)[p] == NewChannel(rules[i])
    {
      var i := ChannelLastAt(rules, p);
    }
  }

  /** ChannelsLast for one port: the index of the rule its channel comes from. */
  lemma {:induction false} ChannelLastAt(rules: seq<ForwardRule>, p: int) returns (i: int)
    requires p in Channels(rules)
    ensures LastWith(rules, i, p) && Channels(rules)[p] == NewChannel(rules[i])
  {
    assert rules != [];
    var init := rules[..|rules| - 1];
    var last := rules[|rules| - 1];
    if p == last.servicePort {
      i := |rules| - 1;
      ChannelsLastRule(rules);
    } else {
      ChannelsEarlierRule(rules, p);
      i := ChannelLastAt(init, p);
      assert rules == init + [last];
      LastWithSnoc(init, last, i, p);
      assert rules[i] == init[i];
    }
  }

  /** The last rule's port maps to its channel, and it is the last rule with that port. */
  lemma ChannelsLastRule(rules: seq<ForwardRule>)
    requires rules != []
    ensures var last := rules[|rules| - 1];
      last.servicePort in Channels(rules) && Channels(rules)[last.servicePort] == NewChannel(last)
      && LastWith(rules, |rules| - 1, last.servicePort)
  {
  }

  /** Any other port keeps the channel the earlier rules gave it. */
  lemma ChannelsEarlierRule(rules: seq<ForwardRule>, p: int)
    requires rules != [] && p != rules[|rules| - 1].servicePort && p in Channels(rules)
    ensures var init := rules[..|rules| - 1];
      p in Channels(init) && Channels(rules)[p] == Channels(init)[p]
  {
  }

  /** A later rule with another port leaves the last rule with p in place. */
  lemma LastWithSnoc(rules: seq<ForwardRule>, r: ForwardRule, i: int, p: int)
    requires LastWith(rules, i, p) && r.servicePort != p
    ensures LastWith(rules + [r], i, p)
  {
    var s := rules + [r];
    assert s[i] == rules[i];
    forall j | i < j < |s| ensures s[j].servicePort != p {
      if j < |rules| { assert s[j] == rules[j]; }
    }
  }

  /** Each channel is stored under its own service port. */
  predicate KeyedByPort(channels: map<int, Channel>) {
    forall p :: p in channels ==> channels[p].servicePort == p
  }

  /** A channel as GetHostChannels leaves it: one targeting the host
      carries the current records of its channel, any other is left
      alone. */
  function Refreshed(c: Channel, host: string, clients: map<string, seq<ChannelClient>>): (r: Channel)
    ensures r.id == c.id && r.targetHost == c.targetHost && r.servicePort == c.servicePort
  {
    if c.targetHost == host then c.(clients := RecordsOf(clients, c.id)) else c
  }

  /** The Range over the channels in GetHostChannels, on the map's value:
      the channels targeting the host take their records and are returned,
      in the order Range happens to visit them. */
  method RefreshHost(channels: map<int, Channel>, clients: map<string, seq<ChannelClient>>, hostName: string)
    returns (m: map<int, Channel>, r: seq<Channel>)
    requires KeyedByPort(channels)
    ensures m.Keys == channels.Keys
    ensures forall p :: p in m ==> m[p] == Refreshed(channels[p], hostName, clients)
    ensures forall c :: c in r <==> exists p :: p in channels && channels[p].targetHost == hostName && c == m[p]
    ensures forall i, j :: 0 <= i < j < |r| ==> r[i].servicePort != r[j].servicePort
  {
    m := channels;
    var todo := channels.Keys;
    ghost var seen: set<int> := {};
    r := [];
    while todo != {}
      invariant todo <= channels.Keys && m.Keys == channels.Keys
      invariant seen == channels.Keys - todo
      invariant forall p :: p in m ==>
        m[p] == if p in todo then channels[p] else Refreshed(channels[p], hostName, clients)
      invariant forall c :: c in r <==> exists p :: p in seen && channels[p].targetHost == hostName && c == m[p]
      invariant forall i :: 0 <= i < |r| ==> r[i].servicePort in seen
      invariant forall i, j :: 0 <= i < j < |r| ==> r[i].servicePort != r[j].servicePort
      decreases todo
    {
      NonEmpty(todo);
      var p :| p in todo;
      var ch := m[p];
      if ch.targetHost == hostName {
        var records: seq<ChannelClient> := [];
        if ch.id in clients {
          var cs := clients[ch.id];
          for i := 0 to |cs|
            invariant records == cs[..i]
          {
            records := records + [cs[i]];
          }
          assert cs[..|cs|] == cs;
        }
        ch := ch.(clients := records);
        m := m[p := ch];
        r := r + [ch];
      }
      todo := todo - {p};
      seen := seen + {p};
    }
  }

  /** GetChannels: every stored channel, once each, in Range's order. */
  method ListChannels(channels: map<int, Channel>) returns (r: seq<Channel>)
    requires KeyedByPort(channels)
    ensures forall c :: c in r <==> exists p :: p in channels && c == channels[p]
    ensures forall i, j :: 0 <= i < j < |r| ==> r[i].servicePort != r[j].servicePort
  {
    var todo := channels.Keys;
    r := [];
    while todo != {}
      invariant todo <= channels.Keys
      invariant forall c :: c in r <==> exists p :: p in channels && p !in todo && c == channels[p]
      invariant forall i :: 0 <= i < |r| ==> r[i].servicePort in channels && r[i].servicePort !in todo
      invariant forall i, j :: 0 <= i < j < |r| ==> r[i].servicePort != r[j].servicePort
      decreases todo
    {
      NonEmpty(todo);
      var p :| p in todo;
      r := r + [channels[p]];
      todo := todo - {p};
    }
  }

  // ---------------------------------------------------------------------
  // The end-of-connection count

  /** The count computed when a forwarded connection ends: one less than
      the stored value, or 0 when the port has no entry. */
  function EndCount(activeConn: map<int, int>, port: int): int {
    if port in activeConn then activeConn[port] - 1 else 0
  }

  /** activeConn after that step: the count is stored back when positive,
      otherwise the entry is deleted. */
  function EndConn(activeConn: map<int, int>, port: int): (r: map<int, int>)
    ensures EndCount(activeConn, port) > 0 ==> r == activeConn[port := EndCount(activeConn, port)]
    ensures EndCount(activeConn, port) <= 0 ==> port !in r && forall q :: q != port ==> (q in r <==> q in activeConn)
    ensures forall q :: q in r && q != port ==> r[q] == activeConn[q]
  {
    var count := EndCount(activeConn, port);
    if count > 0 then activeConn[port := count] else activeConn - {port}
  }

  /** Nothing ever stores into activeConn except the end-of-connection step,
      which never adds an entry: from the empty map it stays empty. */
  lemma {:induction false} ActiveConnStaysEmpty(ports: seq<int>)
    ensures EndSequence(map[], ports) == map[]
  {
    if ports != [] {
      ActiveConnStaysEmpty(ports[..|ports| - 1]);
    }
  }

  /** So the count computed at the end of every forwarded connection is 0,
      and every such end marks its channel inactive. */
  lemma EndCountAlwaysZero(ports: seq<int>)
    ensures forall i :: 0 <= i < |ports| ==> EndCount(EndSequence(map[], ports[..i]), ports[i]) == 0
  {
    forall i | 0 <= i < |ports| ensures EndCount(EndSequence(map[], ports[..i]), ports[i]) == 0 {
      ActiveConnStaysEmpty(ports[..i]);
    }
  }

  /** activeConn after connections on the given ports end, in that order. */
  function EndSequence(activeConn: map<int, int>, ports: seq<int>): map<int, int> {
    if ports == [] then activeConn
    else EndConn(EndSequence(activeConn, ports[..|ports| - 1]), ports[|ports| - 1])
  }

  /** What handleConnection does before dialling. An unknown target host
      ends the connection at once. An online host is dialled without any
      packet. Otherwise one wake packet is sent and the host is polled as
      WaitOnline does, for up to ten seconds: `online(k)` is the answer of
      the k-th poll and `elapsed(k)` the time since the wait began. The
      connection is dialled only when a poll saw the host online. */
  method PrepareDial(known: bool, onlineNow: bool, online: nat -> bool, elapsed: nat -> int)
    returns (packets: nat, polls: nat, dial: bool)
    requires forall k: nat :: elapsed(k) >= k * PollInterval
    ensures !known ==> packets == 0 && polls == 0 && !dial
    ensures known && onlineNow ==> packets == 0 && polls == 0 && dial
    ensures known && !onlineNow ==> packets == 1 && polls >= 1 && (dial <==> online(polls - 1))
    ensures known && !onlineNow ==> forall k: nat :: k < polls - 1 ==> !online(k) && elapsed(k) <= WakeWait
    ensures known && !onlineNow && !dial ==> elapsed(polls - 1) > WakeWait
    ensures polls <= WakeWait / PollInterval + 2
  {
    if !known {
      return 0, 0, false;
    }
    if onlineNow {
      return 0, 0, true;
    }
    packets := 1;
    dial, polls := WaitOnline(WakeWait, online, elapsed);
  }

  class ForwardService {
    var channels: map<int, Channel>                       // by service port
    var channelClients: map<string, seq<ChannelClient>>   // by channel ID
    var activeConn: map<int, int>                         // by service port

    /** Channels sit under their own ports, client IDs are unique within a
        channel, and activeConn is empty: no step ever adds to it. */
    ghost predicate Valid()
      reads this
    {
      KeyedByPort(channels)
      && activeConn == map[]
      && forall id :: id in channelClients ==> UniqueIds(channelClients[id])
    }

    /** NewForwardService: one inactive channel per rule, stored by service
        port in rule order, and no clients. */
    constructor (rules: seq<ForwardRule>)
      ensures Valid()
      ensures channels == Channels(rules) && channelClients == map[] && activeConn == map[]
    {
      var m: map<int, Channel> := map[];
      for i := 0 to |rules|
        invariant m == Channels(rules[..i])
      {
        assert rules[..i + 1][..i] == rules[..i];
        var fc := rules[i];
        m := m[fc.servicePort := NewChannel(fc)];
      }
      assert rules[..|rules|] == rules;
      ChannelsLast(rules);
      channels := m;
      channelClients := map[];
      activeConn := map[];
    }

    /** The start of handleConnection for a connection from ip:clientPort:
        the client's record is stored under the channel's ID. The channel
        itself is not touched. */
    method Open(port: int, ip: string, clientPort: int, now: string)
      modifies this
      requires Valid() && port in channels
      ensures Valid() && channels == old(channels) && activeConn == old(activeConn)
      ensures var id := channels[port].id;
        channelClients == old(channelClients)[id := StoreClient(RecordsOf(old(channelClients), id), ClientRecord(ip, clientPort, now))]
    {
      var id := channels[port].id;
      channelClients := channelClients[id := StoreClient(RecordsOf(channelClients, id), ClientRecord(ip, clientPort, now))];
    }

    /** One tick of the connection's updater goroutine: its record, while
        stored, takes the new time. */
    method Touch(port: int, clientId: string, now: string)
      modifies this
      requires Valid() && port in channels
      ensures Valid() && channels == old(channels) && activeConn == old(activeConn)
      ensures var id := channels[port].id;
        channelClients == if id in old(channelClients)
          then old(channelClients)[id := Touched(old(channelClients)[id], clientId, now)]
          else old(channelClients)
    {
      var id := channels[port].id;
      if id in channelClients {
        var cs := channelClients[id];
        var t := Touched(cs, clientId, now);
        assert UniqueIds(t) by {
          assert forall i :: 0 <= i < |cs| ==> t[i].id == cs[i].id;
        }
        channelClients := channelClients[id := t];
      }
    }

    /** The end of handleConnection. After a forwarded connection the
        count is taken down, and the channel is marked inactive when it
        reaches 0, which with activeConn empty is every time. However the
        connection ended, its record is deleted. */
    method Close(port: int, clientId: string, forwarded: bool) returns (count: int)
      modifies this
      requires Valid() && port in channels
      ensures Valid() && channels.Keys == old(channels).Keys
      ensures forwarded ==> count == EndCount(old(activeConn), port) && count == 0
      ensures forwarded ==> channels == old(channels)[port := old(channels)[port].(status := Inactive)]
      ensures !forwarded ==> count == 0 && channels == old(channels)
      ensures var id := channels[port].id;
        channelClients == if id in old(channelClients)
          then old(channelClients)[id := DeleteClient(old(channelClients)[id], clientId)]
          else old(channelClients)
    {
      count := 0;
      if forwarded {
        count := EndCount(activeConn, port);
        activeConn := EndConn(activeConn, port);
        if count == 0 {
          channels := channels[port := channels[port].(status := Inactive)];
        }
      }
      var id := channels[port].id;
      if id in channelClients {
        channelClients := channelClients[id := DeleteClient(channelClients[id], clientId)];
      }
    }

    /** GetHostChannels: exactly the channels targeting the host, each
        carrying its channel's current records; the stored channels see
        the same update. */
    method GetHostChannels(hostName: string) returns (r: seq<Channel>)
      modifies this
      requires Valid()
      ensures Valid() && channelClients == old(channelClients) && activeConn == old(activeConn)
      ensures channels.Keys == old(channels).Keys
      ensures forall p :: p in channels ==> channels[p] == Refreshed(old(channels)[p], hostName, channelClients)
      ensures forall c :: c in r <==> exists p :: p in old(channels) && old(channels)[p].targetHost == hostName && c == channels[p]
      ensures forall i, j :: 0 <= i < j < |r| ==> r[i].servicePort != r[j].servicePort
    {
      var m;
      m, r := RefreshHost(channels, channelClients, hostName);
      channels := m;
    }

    /** GetChannels: every channel once. */
    method GetChannels() returns (r: seq<Channel>)
      requires Valid()
      ensures forall c :: c in r <==> exists p :: p in channels && c == channels[p]
      ensures forall i, j :: 0 <= i < j < |r| ==> r[i].servicePort != r[j].servicePort
    {
      r := ListChannels(channels);
    }

    /** One tick of the cleaner. */
    method Clean(now: int, parse: string -> Option<int>)
      modifies this
      requires Valid()
      ensures Valid() && channels == old(channels) && activeConn == old(activeConn)
      ensures channelClients.Keys == old(channelClients).Keys
      ensures forall id :: id in channelClients ==> channelClients[id] == Fresh(old(channelClients)[id], now, parse)
    {
      var cleaned := CleanClients(channelClients, now, parse);
      forall id | id in cleaned ensures UniqueIds(cleaned[id]) {
        FreshUnique(channelClients[id], now, parse);
      }
      channelClients := cleaned;
    }
  }
}
