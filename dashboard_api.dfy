/** The client-side services of the wol dashboard: the keep-awake settings
    kept in the browser's local storage under one key, and the choice of
    the status URL. JSON parsing and serialising are parameters. */
module DashboardApi {
  import opened GoText

  const KeepAwakeKey: string := "pc-keep-awake-settings"

  /** Host name to keep-awake flag. */
  type Settings = map<string, bool>

  /** What JSON.parse returns, as far as the dashboard looks at it: an
      object of flags, null, another primitive (number, string, boolean), or
      an array. */
  datatype Value = Object(flags: Settings) | Null | Primitive | Array

  /** getKeepAwakeSettings on the stored text: a missing or empty entry
      reads as "{}", text that is not JSON (the SyntaxError caught) reads as
      the empty object, and any JSON value is returned as parsed, whatever
      it is. */
  function ReadSettings(stored: Option<string>, parse: string -> Option<Value>): (r: Value)
    ensures (stored.None? || stored.value == "") && parse("{}") == Some(Object(map[])) ==> r == Object(map[])
    ensures stored.Some? && stored.value != "" && parse(stored.value).None? ==> r == Object(map[])
    ensures stored.Some? && stored.value != "" && parse(stored.value).Some? ==> r == parse(stored.value).value
  {
    var text := if stored.None? || stored.value == "" then "{}" else stored.value;
    match parse(text)
    case None => Object(map[])
    case Some(v) => v
  }

  /** JSON.stringify writes non-empty text that JSON.parse reads back as
      the same object. */
  ghost predicate RoundTrips(parse: string -> Option<Value>, stringify: Settings -> string) {
    forall s :: stringify(s) != "" && parse(stringify(s)) == Some(Object(s))
  }

  /** The browser's local storage, reduced to the one entry the dashboard
      uses. */
  class KeepAwakeStore {
    var stored: Option<string>

    constructor ()
      ensures stored.None?
    {
      stored := None;
    }

    /** getKeepAwakeSettings. */
    method GetKeepAwakeSettings(parse: string -> Option<Value>) returns (r: Value)
      ensures r == ReadSettings(stored, parse)
      ensures stored.Some? && stored.value != "" && parse(stored.value).None? ==> r == Object(map[])
      ensures stored.Some? && stored.value != "" && parse(stored.value) == Some(Null) ==> r == Null
    {
      var text := if stored.None? || stored.value == "" then "{}" else stored.value;
      var parsed := parse(text);
      if parsed.None? {
        return Object(map[]);
      }
      r := parsed.value;
    }

    /** setLocalKeepAwake: read the settings, set the one flag, write them
        back. On an object, afterwards that host has the given flag and every
        other host keeps its flag. Setting a property of null, or (in a
        module's strict mode) of another primitive, throws a TypeError before
        anything is written; on an array the flag becomes an extra property
        that JSON.stringify drops, so the entry keeps the same array. */
    method SetLocalKeepAwake(host: string, keepAwake: bool, parse: string -> Option<Value>, stringify: Settings -> string)
      returns (thrown: bool)
      modifies this
      requires RoundTrips(parse, stringify)
      ensures thrown <==> ReadSettings(old(stored), parse).Null? || ReadSettings(old(stored), parse).Primitive?
      ensures !ReadSettings(old(stored), parse).Object? ==> stored == old(stored)
      ensures ReadSettings(old(stored), parse).Object? ==>
        stored == Some(stringify(ReadSettings(old(stored), parse).flags[host := keepAwake]))
      ensures ReadSettings(old(stored), parse).Object? ==>
        ReadSettings(stored, parse) == Object(ReadSettings(old(stored), parse).flags[host := keepAwake])
    {
      var settings := GetKeepAwakeSettings(parse);
      match settings
      case Null =>
        return true;
      case Primitive =>
        return true;
      case Array =>
        return false;
      case Object(flags) =>
        flags := flags[host := keepAwake];
        var text := stringify(flags);
        stored := Some(text);
        assert text != "" && parse(text) == Some(Object(flags));
        return false;
    }
  }

  /** Setting a flag on stored settings that are an object and reading the
      settings back gives that flag for that host and the old flags for all
      others. */
  lemma SetThenGet(stored: Option<string>, host: string, keepAwake: bool,
                   parse: string -> Option<Value>, stringify: Settings -> string)
    requires RoundTrips(parse, stringify)
    requires ReadSettings(stored, parse).Object?
    ensures var before := ReadSettings(stored, parse).flags;
      var after := ReadSettings(Some(stringify(before[host := keepAwake])), parse);
      after.Object? && host in after.flags && after.flags[host] == keepAwake
      && (forall h :: h != host ==> (h in after.flags <==> h in before))
      && (forall h :: h != host && h in after.flags ==> after.flags[h] == before[h])
  {
    var s := ReadSettings(stored, parse).flags[host := keepAwake];
    assert stringify(s) != "" && parse(stringify(s)) == Some(Object(s));
  }

  /** The path of getHostStatus. */
  function StatusBase(host: string): string {
    "/pc/" + host + "/status"
  }

  /** The status URL carries the keep-awake query exactly when keepAwake is
      set, and is the bare status path otherwise. */
  function StatusUrl(host: string, keepAwake: bool): (r: string)
    ensures HasPrefix(r, StatusBase(host))
    ensures keepAwake <==> |r| > |StatusBase(host)|
    ensures keepAwake ==> r[|StatusBase(host)|..] == "?keepAwake=true"
  {
    if keepAwake then StatusBase(host) + "?keepAwake=true" else StatusBase(host)
  }
}
