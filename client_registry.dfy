/** The bridge's registry of dashboard clients: each request refreshes its
    client's entry, a host's page lists the clients seen in the last 40
    seconds, and a periodic cleaner deletes the entries older than that.
    Times are integer nanoseconds; RFC 3339 parsing of LastSeen is a
    parameter. */
module ClientRegistry {
  import opened GoText

  const NanosPerSecond: int := 1000000000
  const Timeout: int := 40 * NanosPerSecond

  /** ClientInfo. */
  datatype ClientInfo = ClientInfo(
    id: string,
    userAgent: string,
    ip: string,
    port: string,
    lastSeen: string,
    targetHost: string)

  /** An entry the cleaner deletes: its time parses and is more than 40 s
      before now. An entry whose time does not parse is kept. */
  predicate Stale(c: ClientInfo, now: int, parse: string -> Option<int>) {
    parse(c.lastSeen).Some? && now - parse(c.lastSeen).value > Timeout
  }

  /** An entry GetHostClients lists for the host: its time parses and is at
      most 40 s before now. */
  predicate Visible(c: ClientInfo, host: string, now: int, parse: string -> Option<int>) {
    c.targetHost == host && parse(c.lastSeen).Some? && now - parse(c.lastSeen).value <= Timeout
  }

  /** The entries listed for a host. */
  function VisibleIn(m: map<string, ClientInfo>, host: string, now: int, parse: string -> Option<int>): set<ClientInfo> {
    set k | k in m && Visible(m[k], host, now, parse) :: m[k]
  }

  /** The registry after a clean at now. */
  function Cleaned(m: map<string, ClientInfo>, now: int, parse: string -> Option<int>): (r: map<string, ClientInfo>)
    ensures forall k :: k in r <==> k in m && !Stale(m[k], now, parse)
    ensures forall k :: k in r ==> r[k] == m[k]
  {
    map k | k in m && !Stale(m[k], now, parse) :: m[k]
  }

  /** The cleaner's threshold and the listing's are complementary, so a
      clean at some time leaves the listing at that same time unchanged. */
  lemma CleanKeepsListing(m: map<string, ClientInfo>, host: string, now: int, parse: string -> Option<int>)
    ensures VisibleIn(Cleaned(m, now, parse), host, now, parse) == VisibleIn(m, host, now, parse)
  {
    var c := Cleaned(m, now, parse);
    forall x | x in VisibleIn(m, host, now, parse) ensures x in VisibleIn(c, host, now, parse) {
      var k :| k in m && Visible(m[k], host, now, parse) && x == m[k];
      assert k in c;
    }
  }

  /** Cleaning again at the same time deletes nothing more. */
  lemma CleanIdempotent(m: map<string, ClientInfo>, now: int, parse: string -> Option<int>)
    ensures Cleaned(Cleaned(m, now, parse), now, parse) == Cleaned(m, now, parse)
  {
    var c := Cleaned(m, now, parse);
    assert Cleaned(c, now, parse).Keys == c.Keys;
  }

  class ClientService {
    var clients: map<string, ClientInfo>   // by client ID

    /** Each entry is stored under its own ID. */
    ghost predicate Valid()
      reads this
    {
      forall k :: k in clients ==> clients[k].id == k
    }

    /** NewClientService: an empty registry. */
    constructor ()
      ensures Valid() && clients == map[]
    {
      clients := map[];
    }

    /** UpdateClient: the entry for id is replaced by one stamped with the
        current time; no other entry changes. */
    method UpdateClient(id: string, userAgent: string, ip: string, port: string, targetHost: string, now: string)
      modifies this
      requires Valid()
      ensures Valid()
      ensures clients == old(clients)[id := ClientInfo(id, userAgent, ip, port, now, targetHost)]
    {
      clients := clients[id := ClientInfo(id, userAgent, ip, port, now, targetHost)];
    }

    /** GetHostClients: exactly the host's entries seen in the last 40
        seconds, once each, in the order Range happens to visit them. */
    method GetHostClients(hostName: string, now: int, parse: string -> Option<int>) returns (r: seq<ClientInfo>)
      requires Valid()
      ensures forall c :: c in r <==> c in VisibleIn(clients, hostName, now, parse)
      ensures forall i, j :: 0 <= i < j < |r| ==> r[i].id != r[j].id
    {
      var todo := clients.Keys;
      r := [];
      while todo != {}
        invariant todo <= clients.Keys
        invariant forall c :: c in r <==> exists k :: k in clients && k !in todo && Visible(clients[k], hostName, now, parse) && c == clients[k]
        invariant forall i :: 0 <= i < |r| ==> r[i].id in clients && r[i].id !in todo
        invariant forall i, j :: 0 <= i < j < |r| ==> r[i].id != r[j].id
        decreases todo
      {
        var k := PickKey(todo);
        var client := clients[k];
        if client.targetHost == hostName {
          var lastSeen := parse(client.lastSeen);
          if lastSeen.Some? && now - lastSeen.value <= Timeout {
            r := r + [client];
          }
        }
        todo := todo - {k};
      }
    }

    /** One tick of cleanInactiveClients: exactly the stale entries are
        deleted. */
    method Clean(now: int, parse: string -> Option<int>)
      modifies this
      requires Valid()
      ensures Valid()
      ensures clients == Cleaned(old(clients), now, parse)
    {
      var todo := clients.Keys;
      while todo != {}
        invariant todo <= old(clients).Keys
        invariant forall k :: k in clients <==> k in old(clients) && (k in todo || !Stale(old(clients)[k], now, parse))
        invariant forall k :: k in clients ==> clients[k] == old(clients)[k]
        decreases todo
      {
        var k := PickKey(todo);
        var client := clients[k];
        var lastSeen := parse(client.lastSeen);
        if lastSeen.Some? && now - lastSeen.value > Timeout {
          clients := clients - {k};
        }
        todo := todo - {k};
      }
    }
  }

  /** Some member of a non-empty set of keys. */
  method PickKey(s: set<string>) returns (k: string)
    requires s != {}
    ensures k in s
  {
    if forall x :: x !in s {
      assert false;
    }
    k :| k in s;
  }
}
