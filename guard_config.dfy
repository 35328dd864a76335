/** The greenwake-guard configuration: its defaults, the comma-separated
    list of valid wake events and the defaulting step of LoadConfig. */
module GuardConfig {
  import opened GoText

  const DefaultStrategy: string := "external_wake"
  const DefaultSleepMode: string := "program"
  const DefaultTimedDuration: string := "30m"
  const DefaultProgramSleepDelay: int := 60
  const DefaultWolPort: int := 9
  const DefaultTimeoutSecs: int := 300
  const DefaultValidEvents: string := "wol,device"
  const DefaultLogLevel: string := "debug"

  datatype ExternalWake = ExternalWake(wolPort: int, timeoutSecs: int, validEvents: string)

  datatype Config = Config(
    strategy: string,
    sleepMode: string,
    timedDuration: string,
    externalWake: ExternalWake,
    programSleepDelay: int,
    logLevel: string)

  /** ExternalWake.GetValidEvents: the comma-separated pieces, untrimmed;
      an empty setting means "wol,device". */
  function GetValidEvents(w: ExternalWake): (r: seq<string>)
    ensures |r| >= 1
  {
    Split(if w.validEvents == "" then DefaultValidEvents else w.validEvents, ',')
  }

  /** The default list is wol and device; a set list joined with "," gives
      the setting back, and there is one piece more than there are commas. */
  lemma ValidEventsPieces(w: ExternalWake)
    ensures w.validEvents == "" ==> GetValidEvents(w) == ["wol", "device"]
    ensures w.validEvents != "" ==> Join(GetValidEvents(w), ",") == w.validEvents
    ensures |GetValidEvents(w)| == Count(if w.validEvents == "" then DefaultValidEvents else w.validEvents, ',') + 1
  {
    var text := if w.validEvents == "" then DefaultValidEvents else w.validEvents;
    SplitJoin(text, ',');
    SplitCount(text, ',');
    if w.validEvents == "" {
      DefaultPieces();
    }
  }

  lemma DefaultPieces()
    ensures Split(DefaultValidEvents, ',') == ["wol", "device"]
  {
    assert DefaultValidEvents == "wol" + [','] + "device";
    SplitTwo("wol", "device", ',');
  }

  lemma SplitTwo(a: string, b: string, sep: char)
    requires sep !in a && sep !in b
    ensures Split(a + [sep] + b, sep) == [a, b]
  {
    SplitFirst(a, b, sep);
    SplitNone(b, sep);
  }

  /** IsEventTypeValid: a linear search of the valid-event list. */
  method IsEventTypeValid(c: Config, eventType: string) returns (r: bool)
    ensures r <==> eventType in GetValidEvents(c.externalWake)
  {
    var events := GetValidEvents(c.externalWake);
    for i := 0 to |events|
      invariant eventType !in events[..i]
    {
      if events[i] == eventType {
        return true;
      }
    }
    assert events[..|events|] == events;
    return false;
  }

  /** The configuration written when neither a config file nor an example exists. */
  function Fallback(): Config {
    Config(DefaultStrategy, DefaultSleepMode, DefaultTimedDuration,
           ExternalWake(DefaultWolPort, DefaultTimeoutSecs, DefaultValidEvents),
           DefaultProgramSleepDelay, DefaultLogLevel)
  }

  /** A configuration with no empty string and no zero number left to default. */
  predicate Complete(c: Config) {
    c.strategy != "" && c.sleepMode != "" && c.timedDuration != ""
    && c.programSleepDelay != 0 && c.externalWake.wolPort != 0
    && c.externalWake.timeoutSecs != 0 && c.externalWake.validEvents != ""
    && c.logLevel != ""
  }

  function OrString(v: string, d: string): string { if v == "" then d else v }
  function OrInt(v: int, d: int): int { if v == 0 then d else v }

  /** The configuration after the defaulting block of LoadConfig. */
  function Defaulted(c: Config): (r: Config)
  {
    Config(OrString(c.strategy, DefaultStrategy),
           OrString(c.sleepMode, DefaultSleepMode),
           OrString(c.timedDuration, DefaultTimedDuration),
           ExternalWake(OrInt(c.externalWake.wolPort, DefaultWolPort),
                        OrInt(c.externalWake.timeoutSecs, DefaultTimeoutSecs),
                        OrString(c.externalWake.validEvents, DefaultValidEvents)),
           OrInt(c.programSleepDelay, DefaultProgramSleepDelay),
           OrString(c.logLevel, DefaultLogLevel))
  }

  /** The defaulting block, one field at a time as LoadConfig writes it. */
  method ApplyDefaults(cfg: Config) returns (r: Config)
    ensures r == Defaulted(cfg)
    ensures Complete(r)
  {
    r := cfg;
    if r.strategy == "" { r := r.(strategy := DefaultStrategy); }
    if r.sleepMode == "" { r := r.(sleepMode := DefaultSleepMode); }
    if r.timedDuration == "" { r := r.(timedDuration := DefaultTimedDuration); }
    if r.programSleepDelay == 0 { r := r.(programSleepDelay := DefaultProgramSleepDelay); }
    var w := r.externalWake;
    if w.wolPort == 0 { w := w.(wolPort := DefaultWolPort); }
    if w.timeoutSecs == 0 { w := w.(timeoutSecs := DefaultTimeoutSecs); }
    if w.validEvents == "" { w := w.(validEvents := DefaultValidEvents); }
    r := r.(externalWake := w);
    if r.logLevel == "" { r := r.(logLevel := DefaultLogLevel); }
    DefaultedFields(cfg);
  }

  /** Defaulting changes only the empty or zero fields (negative numbers are
      kept) and leaves a configuration with nothing left to default. */
  lemma DefaultedFields(c: Config)
    ensures Complete(Defaulted(c))
    ensures c.strategy != "" ==> Defaulted(c).strategy == c.strategy
    ensures c.sleepMode != "" ==> Defaulted(c).sleepMode == c.sleepMode
    ensures c.timedDuration != "" ==> Defaulted(c).timedDuration == c.timedDuration
    ensures c.programSleepDelay != 0 ==> Defaulted(c).programSleepDelay == c.programSleepDelay
    ensures c.externalWake.wolPort != 0 ==> Defaulted(c).externalWake.wolPort == c.externalWake.wolPort
    ensures c.externalWake.timeoutSecs != 0 ==> Defaulted(c).externalWake.timeoutSecs == c.externalWake.timeoutSecs
    ensures c.externalWake.validEvents != "" ==> Defaulted(c).externalWake.validEvents == c.externalWake.validEvents
    ensures c.logLevel != "" ==> Defaulted(c).logLevel == c.logLevel
    ensures Complete(c) <==> Defaulted(c) == c
  {
  }

  /** Defaulting twice is defaulting once. */
  lemma DefaultedIdempotent(c: Config)
    ensures Defaulted(Defaulted(c)) == Defaulted(c)
  {
  }

  /** The built-in fallback is what defaulting makes of an all-empty file. */
  lemma FallbackIsDefaults()
    ensures Fallback() == Defaulted(Config("", "", "", ExternalWake(0, 0, ""), 0, ""))
    ensures Complete(Fallback())
  {
  }

  /** Where LoadConfig finds its text: an existing file, a copied example, or nothing. */
  datatype Source = Existing(data: string) | Example(data: string) | NoExample

  /** LoadConfig with the file system reduced to its outcome: writeOk says
      whether creating the directory and writing the file succeeded, and
      parse stands for yaml.Unmarshal. */
  function LoadConfig(src: Source, writeOk: bool, parse: string -> Option<Config>): (r: Result<Config>)
    ensures r.Ok? ==> Complete(r.value)
    ensures src.NoExample? && writeOk ==> r == Ok(Fallback())
    ensures !src.Existing? && !writeOk ==> r.Err?
    ensures src.Existing? && parse(src.data).Some? ==> r == Ok(Defaulted(parse(src.data).value))
  {
    match src
    case NoExample => if writeOk then Ok(Fallback()) else Err("write default config")
    case Example(data) =>
      if !writeOk then Err("copy example config")
      else ParseAndDefault(data, parse)
    case Existing(data) => ParseAndDefault(data, parse)
  }

  function ParseAndDefault(data: string, parse: string -> Option<Config>): (r: Result<Config>)
    ensures r.Ok? ==> Complete(r.value)
  {
    match parse(data)
    case None => Err("yaml")
    case Some(c) => DefaultedFields(c); Ok(Defaulted(c))
  }
}
