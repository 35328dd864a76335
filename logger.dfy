/** The awake logger: the level named in the configuration and the gate
    that decides which messages are written. Writing itself (the log file
    and the terminal) is left out; each logging call reports whether it
    would write. */
module AwakeLogger {
  import opened GoText

  /** LogLevel, in increasing order of severity. */
  datatype Level = Debug | Info | Error

  function Rank(l: Level): nat {
    match l
    case Debug => 0
    case Info => 1
    case Error => 2
  }

  /** parseLogLevel: the three names, in any letter case; anything else
      means Debug. */
  function ParseLevel(name: string): (r: Level)
  {
    match ToLower(name)
    case "info" => Info
    case "error" => Error
    case _ => Debug
  }

  /** The three level names are recognised whatever their letter case, and
      only they select a level other than Debug. */
  lemma ParseLevelCases(name: string)
    ensures ParseLevel(UpperAscii(name)) == ParseLevel(name)
    ensures ParseLevel(name) == Info <==> ToLower(name) == "info"
    ensures ParseLevel(name) == Error <==> ToLower(name) == "error"
  {
    ToLowerUpper(name);
  }

  /** The upper-case spellings select their levels. */
  lemma ParseLevelUpper()
    ensures ParseLevel("DEBUG") == Debug && ParseLevel("INFO") == Info && ParseLevel("ERROR") == Error
  {
    LowerWord("DEBUG", "debug");
    LowerWord("INFO", "info");
    LowerWord("ERROR", "error");
  }

  lemma LowerWord(s: string, t: string)
    requires |s| == |t| && forall i :: 0 <= i < |s| ==> 'A' <= s[i] <= 'Z' && t[i] == s[i] + ('a' - 'A')
    ensures ToLower(s) == t
  {
  }

  /** A message of severity `msg` is written under threshold `threshold`
      once the logger exists. */
  predicate Writes(ready: bool, threshold: Level, msg: Level) {
    ready && Rank(threshold) <= Rank(msg)
  }

  /** Raising the threshold never lets through a message that was held back. */
  lemma RaisingSuppresses(ready: bool, lower: Level, higher: Level, msg: Level)
    requires Rank(lower) <= Rank(higher)
    requires !Writes(ready, lower, msg)
    ensures !Writes(ready, higher, msg)
  {
  }

  /** The package globals Logger (here: whether it exists) and logLevel. */
  class Logger {
    var ready: bool
    var level: Level

    /** Before Init: no logger, level zero (Debug). */
    constructor ()
      ensures !ready && level == Debug
    {
      ready := false;
      level := Debug;
    }

    /** Init; `fileOk` says whether the log directory and file could be
        created. On failure nothing changes. */
    method Init(name: string, fileOk: bool) returns (err: Option<string>)
      modifies this
      ensures fileOk ==> err.None? && ready && level == ParseLevel(name)
      ensures !fileOk ==> err.Some? && ready == old(ready) && level == old(level)
    {
      if !fileOk {
        return Some("open log file");
      }
      ready := true;
      level := ParseLevel(name);
      return None;
    }

    /** Info: written at the Debug and Info thresholds, never before Init. */
    method LogInfo() returns (written: bool)
      ensures written <==> ready && level in {Debug, Info}
      ensures written == Writes(ready, level, Info)
    {
      written := ready && Rank(level) <= Rank(Info);
    }

    /** Error: written at every threshold, never before Init. */
    method LogError() returns (written: bool)
      ensures written <==> ready
      ensures written == Writes(ready, level, Error)
    {
      written := ready && Rank(level) <= Rank(Error);
    }

    /** Debug: written only at the Debug threshold, never before Init. */
    method LogDebug() returns (written: bool)
      ensures written <==> ready && level == Debug
      ensures written == Writes(ready, level, Debug)
    {
      written := ready && Rank(level) <= Rank(Debug);
    }
  }
}
