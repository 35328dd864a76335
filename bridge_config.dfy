/** The greenwake-bridge configuration: the hosts that can be woken, the
    forwarding rules, and the defaults Load fills in. */
module BridgeConfig {
  import opened GoText

  const DefaultLogLevel: string := "info"
  const DefaultHttpPort: string := "8055"
  const DefaultRefreshInterval: int := 30
  const DefaultWakeTimeout: int := 10
  const DefaultRetryCount: int := 1
  const DefaultWakeInterval: int := 5

  /** PCHostConfig. */
  datatype HostConfig = HostConfig(
    name: string,
    ip: string,
    mac: string,
    monitorPort: int,
    wakeTimeout: int,
    retryCount: int,
    wakeInterval: int)

  /** One forwarding rule: connections to servicePort go to targetHost:targetPort. */
  datatype Forward = Forward(servicePort: int, targetHost: string, targetPort: int)

  datatype Config = Config(
    logLevel: string,
    httpPort: string,
    user: string,
    password: string,
    refreshInterval: int,
    hosts: seq<HostConfig>,
    forwards: seq<Forward>)

  function OrString(v: string, d: string): string { if v == "" then d else v }
  function OrInt(v: int, d: int): int { if v == 0 then d else v }

  /** A host entry with its zero timing fields replaced by the defaults. */
  function DefaultedHost(h: HostConfig): (r: HostConfig)
  {
    h.(wakeTimeout := OrInt(h.wakeTimeout, DefaultWakeTimeout),
       retryCount := OrInt(h.retryCount, DefaultRetryCount),
       wakeInterval := OrInt(h.wakeInterval, DefaultWakeInterval))
  }

  /** The configuration after the defaulting block of Load. */
  function Defaulted(c: Config): (r: Config)
  {
    c.(logLevel := OrString(c.logLevel, DefaultLogLevel),
       httpPort := OrString(c.httpPort, DefaultHttpPort),
       refreshInterval := OrInt(c.refreshInterval, DefaultRefreshInterval),
       hosts := seq(|c.hosts|, i requires 0 <= i < |c.hosts| => DefaultedHost(c.hosts[i])))
  }

  /** A host entry that defaulting leaves alone. */
  predicate HostComplete(h: HostConfig) {
    h.wakeTimeout != 0 && h.retryCount != 0 && h.wakeInterval != 0
  }

  /** A configuration that defaulting leaves alone. */
  predicate Complete(c: Config) {
    c.logLevel != "" && c.httpPort != "" && c.refreshInterval != 0
    && forall i :: 0 <= i < |c.hosts| ==> HostComplete(c.hosts[i])
  }

  /** The defaulting block: three top-level fields, then each host in
      place, in order. */
  method ApplyDefaults(cfg: Config) returns (r: Config)
    ensures r == Defaulted(cfg)
    ensures Complete(r)
  {
    r := cfg;
    if r.logLevel == "" { r := r.(logLevel := DefaultLogLevel); }
    if r.httpPort == "" { r := r.(httpPort := DefaultHttpPort); }
    if r.refreshInterval == 0 { r := r.(refreshInterval := DefaultRefreshInterval); }
    var hosts := r.hosts;
    for i := 0 to |hosts|
      invariant |hosts| == |cfg.hosts|
      invariant forall k :: 0 <= k < i ==> hosts[k] == DefaultedHost(cfg.hosts[k])
      invariant forall k :: i <= k < |hosts| ==> hosts[k] == cfg.hosts[k]
    {
      var h := hosts[i];
      if h.wakeTimeout == 0 { h := h.(wakeTimeout := DefaultWakeTimeout); }
      if h.retryCount == 0 { h := h.(retryCount := DefaultRetryCount); }
      if h.wakeInterval == 0 { h := h.(wakeInterval := DefaultWakeInterval); }
      hosts := hosts[i := h];
    }
    r := r.(hosts := hosts);
  }

  /** Defaulting fills exactly the empty or zero settings (negative numbers
      are kept), and keeps the number, order and identity of the hosts and
      every forwarding rule. */
  lemma DefaultedFields(c: Config)
    ensures var r := Defaulted(c);
      Complete(r)
      && (c.logLevel != "" ==> r.logLevel == c.logLevel)
      && (c.httpPort != "" ==> r.httpPort == c.httpPort)
      && (c.refreshInterval != 0 ==> r.refreshInterval == c.refreshInterval)
      && r.user == c.user && r.password == c.password
      && r.forwards == c.forwards && |r.hosts| == |c.hosts|
      && (forall i :: 0 <= i < |c.hosts| ==>
            r.hosts[i].name == c.hosts[i].name && r.hosts[i].ip == c.hosts[i].ip
            && r.hosts[i].mac == c.hosts[i].mac && r.hosts[i].monitorPort == c.hosts[i].monitorPort
            && (c.hosts[i].wakeTimeout != 0 ==> r.hosts[i].wakeTimeout == c.hosts[i].wakeTimeout)
            && (c.hosts[i].retryCount != 0 ==> r.hosts[i].retryCount == c.hosts[i].retryCount)
            && (c.hosts[i].wakeInterval != 0 ==> r.hosts[i].wakeInterval == c.hosts[i].wakeInterval))
  {
  }

  /** A configuration is left unchanged exactly when nothing is missing. */
  lemma DefaultedFixpoint(c: Config)
    ensures Defaulted(c) == c <==> Complete(c)
  {
    if Complete(c) {
      assert Defaulted(c).hosts == c.hosts;
    }
  }

  /** Defaulting twice is defaulting once. */
  lemma DefaultedIdempotent(c: Config)
    ensures Defaulted(Defaulted(c)) == Defaulted(c)
  {
    DefaultedFields(c);
    DefaultedFixpoint(Defaulted(c));
  }

  /** The configuration written when there is no file and no example. */
  function Fallback(): Config {
    Config(DefaultLogLevel, DefaultHttpPort, "", "", DefaultRefreshInterval, [], [])
  }

  /** The fallback has no hosts and no forwarding rules, and defaulting
      leaves it unchanged. */
  lemma FallbackComplete()
    ensures Fallback().hosts == [] && Fallback().forwards == []
    ensures Defaulted(Fallback()) == Fallback()
  {
    DefaultedFixpoint(Fallback());
  }

  /** Where Load finds its text: an existing file, an example copied into
      place (writeOk: copying succeeded), or nothing. */
  datatype Source = Existing(data: string) | Example(data: string) | NoExample

  /** Load with the file system reduced to its outcome; parse stands for
      yaml.Unmarshal. */
  function Load(src: Source, writeOk: bool, parse: string -> Option<Config>): (r: Result<Config>)
    ensures r.Ok? ==> Complete(r.value)
    ensures src.NoExample? ==> (r.Ok? <==> writeOk) && (writeOk ==> r.value == Fallback())
    ensures src.Example? && !writeOk ==> r.Err?
    ensures !src.NoExample? && (writeOk || src.Existing?) ==>
      (r.Ok? <==> parse(src.data).Some?) && (r.Ok? ==> r.value == Defaulted(parse(src.data).value))
  {
    match src
    case NoExample => if writeOk then FallbackComplete(); Ok(Fallback()) else Err("write default config")
    case Example(data) => if !writeOk then Err("copy example config") else Parsed(data, parse)
    case Existing(data) => Parsed(data, parse)
  }

  function Parsed(data: string, parse: string -> Option<Config>): (r: Result<Config>)
    ensures r.Ok? <==> parse(data).Some?
    ensures r.Ok? ==> Complete(r.value) && r.value == Defaulted(parse(data).value)
  {
    match parse(data)
    case None => Err("yaml")
    case Some(c) => DefaultedFields(c); Ok(Defaulted(c))
  }
}
