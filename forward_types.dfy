/** What the two TCP forwarding services (the wol server's and the
    bridge's) have in common: forwarding rules, channel IDs, the client
    records of a channel, the periodic cleaner and the wait for a host to
    come online. Times are integer nanoseconds; RFC 3339 parsing is a
    parameter. */
module ForwardTypes {
  import opened GoText

  const NanosPerSecond: int := 1000000000
  const ClientTimeout: int := 40 * NanosPerSecond
  const PollInterval: int := 100 * 1000000

  const Active: string := "active"
  const Inactive: string := "inactive"

  /** One entry of the Forwards configuration. */
  datatype ForwardRule = ForwardRule(servicePort: int, targetHost: string, targetPort: int)

  /** ChannelClient: one open connection of a channel. */
  datatype ChannelClient = ChannelClient(id: string, ip: string, port: string, status: string, lastActive: string)

  // ---------------------------------------------------------------------
  // Channel IDs

  /** "<servicePort>-<targetHost>:<targetPort>". */
  function ChannelId(r: ForwardRule): string {
    Itoa(r.servicePort) + "-" + (r.targetHost + ":" + Itoa(r.targetPort))
  }

  /** The last index of c in s, or -1. */
  function LastOf(s: string, c: char): (r: int)
    ensures -1 <= r < |s| && (r >= 0 ==> s[r] == c)
    ensures forall k :: r < k < |s| ==> s[k] != c
  {
    if s == [] then -1 else if s[|s| - 1] == c then |s| - 1 else LastOf(s[..|s| - 1], c)
  }

  /** Reading a channel ID back: the service port up to the first '-', the
      target port after the last ':', the host in between. */
  function ParseChannelId(id: string): Option<ForwardRule> {
    var i := FirstOf(id, '-');
    if i == |id| then None
    else
      var rest := id[i + 1..];
      var j := LastOf(rest, ':');
      if j < 0 then None
      else match (Atoi(id[..i]), Atoi(rest[j + 1..]))
        case (Some(sp), Some(tp)) => Some(ForwardRule(sp, rest[..j], tp))
        case _ => None
  }

  lemma DigitsHaveNo(s: string, c: char)
    requires AllDigits(s) && !IsDigit(c)
    ensures c !in s
  {
  }

  /** The ID of a rule with a non-negative service port and 64-bit ports
      reads back as that rule, whatever characters the host name holds. */
  lemma ChannelIdRoundTrip(r: ForwardRule)
    requires 0 <= r.servicePort <= MaxInt64 && MinInt64 <= r.targetPort <= MaxInt64
    ensures ParseChannelId(ChannelId(r)) == Some(r)
  {
    var sp := Itoa(r.servicePort);
    var tp := Itoa(r.targetPort);
    assert '-' !in sp by { DigitsHaveNo(sp, '-'); }
    assert ':' !in tp by { NoColon(r.targetPort); }
    assert Atoi(sp) == Some(r.servicePort) by { AtoiItoa(r.servicePort); }
    assert Atoi(tp) == Some(r.targetPort) by { AtoiItoa(r.targetPort); }
    ParseOfParts(sp, r.targetHost, tp, r.servicePort, r.targetPort);
  }

  /** An ID whose first part has no '-' and whose last part has no ':'
      splits back into its three parts. */
  lemma ParseOfParts(sp: string, host: string, tp: string, a: int, b: int)
    requires '-' !in sp && ':' !in tp && Atoi(sp) == Some(a) && Atoi(tp) == Some(b)
    ensures ParseChannelId(sp + "-" + (host + ":" + tp)) == Some(ForwardRule(a, host, b))
  {
    FirstAfter(sp, host + ":" + tp, '-');
    LastBefore(host, tp, ':');
  }

  lemma NoColon(n: int)
    ensures ':' !in Itoa(n)
  {
    var s := Itoa(n);
    if n >= 0 { DigitsHaveNo(s, ':'); }
    else { DigitsHaveNo(s[1..], ':'); assert s == [s[0]] + s[1..]; }
  }

  lemma FirstAfter(a: string, rest: string, c: char)
    requires c !in a
    ensures var s := a + [c] + rest; FirstOf(s, c) == |a| && s[..|a|] == a && s[|a| + 1..] == rest
  {
    var s := a + [c] + rest;
    assert s[|a|] == c;
    assert forall k :: 0 <= k < |a| ==> s[k] == a[k];
  }

  lemma LastBefore(a: string, b: string, c: char)
    requires c !in b
    ensures var s := a + [c] + b; LastOf(s, c) == |a| && s[..|a|] == a && s[|a| + 1..] == b
  {
    var s := a + [c] + b;
    assert s[|a|] == c;
    assert forall k :: |a| < k < |s| ==> s[k] == b[k - |a| - 1];
  }

  /** Distinct rules (within those ranges) get distinct channel IDs. */
  lemma ChannelIdInjective(a: ForwardRule, b: ForwardRule)
    requires 0 <= a.servicePort <= MaxInt64 && MinInt64 <= a.targetPort <= MaxInt64
    requires 0 <= b.servicePort <= MaxInt64 && MinInt64 <= b.targetPort <= MaxInt64
    requires ChannelId(a) == ChannelId(b)
    ensures a == b
  {
    ChannelIdRoundTrip(a);
    ChannelIdRoundTrip(b);
  }

  // ---------------------------------------------------------------------
  // The client records of one channel

  /** Client IDs are unique: the records of one channel form a sync.Map
      keyed by ID; the sequence order stands for the order Range visits. */
  predicate UniqueIds(cs: seq<ChannelClient>) {
    forall i, j :: 0 <= i < j < |cs| ==> cs[i].id != cs[j].id
  }

  /** sync.Map.Store: replaces the record with the same ID, or adds one. */
  function StoreClient(cs: seq<ChannelClient>, c: ChannelClient): (r: seq<ChannelClient>)
    requires UniqueIds(cs)
    ensures UniqueIds(r) && c in r
    ensures forall x :: x in r && x.id != c.id ==> x in cs
    ensures forall x :: x in cs && x.id != c.id ==> x in r
    ensures forall x :: x in r && x.id == c.id ==> x == c
  {
    if exists k :: 0 <= k < |cs| && cs[k].id == c.id then
      var k :| 0 <= k < |cs| && cs[k].id == c.id;
      var r := cs[k := c];
      assert r[k] == c;
      assert forall x :: x in r && x.id != c.id ==> x in cs by {
        forall x | x in r && x.id != c.id ensures x in cs {
          var m :| 0 <= m < |r| && r[m] == x;
          assert m != k && r[m] == cs[m];
        }
      }
      assert forall x :: x in cs && x.id != c.id ==> x in r by {
        forall x | x in cs && x.id != c.id ensures x in r {
          var m :| 0 <= m < |cs| && cs[m] == x;
          assert m != k && r[m] == cs[m];
        }
      }
      r
    else
      cs + [c]
  }

  /** The record handleConnection makes for a new connection: ID
      "<ip>:<port>", active, stamped with the connection time. */
  function ClientRecord(ip: string, port: int, now: string): ChannelClient {
    ChannelClient(ip + ":" + Itoa(port), ip, Itoa(port), Active, now)
  }

  /** One tick of the per-connection updater: the record with the given ID,
      if there is one, takes the new time. */
  function Touched(cs: seq<ChannelClient>, id: string, now: string): (r: seq<ChannelClient>)
    ensures |r| == |cs|
    ensures forall i :: 0 <= i < |cs| ==> r[i].id == cs[i].id
    ensures forall i :: 0 <= i < |cs| && cs[i].id != id ==> r[i] == cs[i]
    ensures forall i :: 0 <= i < |cs| && cs[i].id == id ==> r[i] == cs[i].(lastActive := now)
  {
    seq(|cs|, i requires 0 <= i < |cs| => if cs[i].id == id then cs[i].(lastActive := now) else cs[i])
  }

  /** A record just touched with a time that parses to t survives a clean
      at any moment at most 40 s after t. */
  lemma TouchedSurvives(cs: seq<ChannelClient>, id: string, now: string, t: int, later: int, parse: string -> Option<int>)
    requires exists i :: 0 <= i < |cs| && cs[i].id == id
    requires parse(now) == Some(t) && later - t <= ClientTimeout
    ensures exists x :: x in Fresh(Touched(cs, id, now), later, parse) && x.id == id && x.lastActive == now
  {
    var i :| 0 <= i < |cs| && cs[i].id == id;
    var r := Touched(cs, id, now);
    assert r[i] in r && !Expired(r[i], later, parse);
  }

  /** The records other than those with the given ID, in order. */
  function DeleteClient(cs: seq<ChannelClient>, id: string): (r: seq<ChannelClient>)
    ensures forall x :: x in r <==> x in cs && x.id != id
    ensures UniqueIds(cs) ==> UniqueIds(r)
  {
    if cs == [] then []
    else if cs[0].id == id then DeleteClient(cs[1..], id)
    else [cs[0]] + DeleteClient(cs[1..], id)
  }

  /** The records stored under a channel ID, none when there are none. */
  function RecordsOf(clients: map<string, seq<ChannelClient>>, id: string): seq<ChannelClient> {
    if id in clients then clients[id] else []
  }

  /** A record the cleaner removes: its time parses and is more than 40 s
      before now. A record whose time does not parse is never removed. */
  predicate Expired(c: ChannelClient, now: int, parse: string -> Option<int>) {
    parse(c.lastActive).Some? && now - parse(c.lastActive).value > ClientTimeout
  }

  /** The records the cleaner keeps, in order. */
  function Fresh(cs: seq<ChannelClient>, now: int, parse: string -> Option<int>): (r: seq<ChannelClient>)
    ensures forall x :: x in r <==> x in cs && !Expired(x, now, parse)
    ensures |r| <= |cs|
  {
    if cs == [] then []
    else
      var r := Fresh(cs[..|cs| - 1], now, parse) + (if Expired(cs[|cs| - 1], now, parse) then [] else [cs[|cs| - 1]]);
      assert forall x :: x in cs <==> x in cs[..|cs| - 1] || x == cs[|cs| - 1] by {
        assert cs == cs[..|cs| - 1] + [cs[|cs| - 1]];
      }
      r
  }

  /** One run of cleanInactiveClients over every channel: each channel's
      records lose exactly the expired ones, and no channel is added or
      dropped. */
  method CleanClients(clients: map<string, seq<ChannelClient>>, now: int, parse: string -> Option<int>)
    returns (r: map<string, seq<ChannelClient>>)
    ensures r.Keys == clients.Keys
    ensures forall id :: id in r ==> r[id] == Fresh(clients[id], now, parse)
  {
    r := clients;
    var todo := clients.Keys;
    while todo != {}
      invariant todo <= clients.Keys && r.Keys == clients.Keys
      invariant forall id :: id in r && id !in todo ==> r[id] == Fresh(clients[id], now, parse)
      invariant forall id :: id in todo ==> r[id] == clients[id]
      decreases todo
    {
      var id :| id in todo;
      var kept: seq<ChannelClient> := [];
      var cs := clients[id];
      for i := 0 to |cs|
        invariant kept == Fresh(cs[..i], now, parse)
      {
        assert cs[..i + 1][..i] == cs[..i];
        if !Expired(cs[i], now, parse) {
          kept := kept + [cs[i]];
        }
      }
      assert cs[..|cs|] == cs;
      r := r[id := kept];
      todo := todo - {id};
    }
  }

  /** Cleaning keeps client IDs unique. */
  lemma {:induction false} FreshUnique(cs: seq<ChannelClient>, now: int, parse: string -> Option<int>)
    requires UniqueIds(cs)
    ensures UniqueIds(Fresh(cs, now, parse))
  {
    if cs != [] {
      var init := cs[..|cs| - 1];
      FreshUnique(init, now, parse);
      var last := cs[|cs| - 1];
      assert forall x :: x in Fresh(init, now, parse) ==> x in init;
      assert forall x :: x in init ==> x.id != last.id by {
        forall x | x in init ensures x.id != last.id {
          var m :| 0 <= m < |init| && init[m] == x;
          assert cs[m] == x;
        }
      }
    }
  }

  /** Cleaning at one time again changes nothing. */
  lemma FreshIdempotent(cs: seq<ChannelClient>, now: int, parse: string -> Option<int>)
    ensures Fresh(Fresh(cs, now, parse), now, parse) == Fresh(cs, now, parse)
  {
    FreshNoneExpired(Fresh(cs, now, parse), now, parse);
  }

  lemma {:induction false} FreshNoneExpired(cs: seq<ChannelClient>, now: int, parse: string -> Option<int>)
    requires forall x :: x in cs ==> !Expired(x, now, parse)
    ensures Fresh(cs, now, parse) == cs
  {
    if cs != [] {
      var init, last := cs[..|cs| - 1], cs[|cs| - 1];
      assert cs == init + [last];
      assert forall x :: x in init ==> x in cs;
      assert last in cs && !Expired(last, now, parse);
      FreshNoneExpired(init, now, parse);
      assert Fresh(cs, now, parse) == Fresh(init, now, parse) + [last];
    }
  }

  /** A non-empty set of keys has a member to pick. */
  lemma NonEmpty(s: set<int>)
    requires s != {}
    ensures exists x :: x in s
  {
    if forall x :: x !in s {
      assert false;
    }
  }

  // ---------------------------------------------------------------------
  // Waiting for a host to come online

  /** The polling loop of handleConnection: check the host, stop when it is
      online, give up once more than `timeout` has passed, otherwise sleep
      100 ms. `online(k)` is the answer of the k-th check and `elapsed(k)`
      the time since the start when that check returned; sleeping makes the
      k-th check come at least k * 100 ms after the start. */
  method WaitOnline(timeout: int, online: nat -> bool, elapsed: nat -> int) returns (up: bool, polls: nat)
    requires timeout >= 0
    requires forall k: nat :: elapsed(k) >= k * PollInterval
    ensures polls >= 1
    ensures up <==> online(polls - 1)
    ensures forall k: nat :: k < polls - 1 ==> !online(k) && elapsed(k) <= timeout
    ensures !up ==> elapsed(polls - 1) > timeout
    ensures polls <= timeout / PollInterval + 2
  {
    polls := 0;
    while true
      invariant polls <= timeout / PollInterval + 1
      invariant forall k: nat :: k < polls ==> !online(k) && elapsed(k) <= timeout
      decreases timeout / PollInterval + 1 - polls
    {
      if online(polls) {
        return true, polls + 1;
      }
      if elapsed(polls) > timeout {
        return false, polls + 1;
      }
      assert polls * PollInterval <= timeout;
      polls := polls + 1;
    }
  }
}
