/** The macOS device monitor of awake: every 30 seconds the tail of the
    power-management log is searched for user activity newer than the last
    check, and a keyboard wake event is raised at most once per five
    seconds. Times are integers (nanoseconds); the zero time.Time is None,
    which every parsed time is after. ParseInLocation with the layout
    "2006-01-02 15:04:05" is a parameter. */
module AwakeDeviceMonitor {
  import opened GoText

  const Marker: string := "UserIsActive"
  const MaxLines: int := 1000
  const NanosPerSecond: int := 1000000000
  const MinGap: int := 5 * NanosPerSecond

  /** t is after `since`; every time is after the zero time. */
  predicate After(t: int, since: Option<int>) {
    since.None? || t > since.value
  }

  /** The first two space-separated parts of a line joined by one space:
      the line up to, not including, its second space. */
  function DateText(line: string): string
    requires ' ' in line
  {
    var i := FirstOf(line, ' ');
    var rest := line[i + 1..];
    line[..i] + " " + rest[..FirstOf(rest, ' ')]
  }

  /** parseTimestamp: a line without a space has fewer than two parts and
      is rejected; otherwise the text parsed is the longest prefix of the
      line holding exactly one space. */
  function ParseTimestamp(line: string, parse: string -> Option<int>): (r: Option<int>)
    ensures ' ' !in line ==> r.None?
    ensures ' ' in line ==>
      (r == parse(DateText(line))
       && HasPrefix(line, DateText(line)) && Count(DateText(line), ' ') == 1
       && (|DateText(line)| == |line| || line[|DateText(line)|] == ' '))
  {
    if ' ' !in line then None
    else
      DateTextShape(line);
      parse(DateText(line))
  }

  lemma DateTextShape(line: string)
    requires ' ' in line
    ensures HasPrefix(line, DateText(line)) && Count(DateText(line), ' ') == 1
    ensures |DateText(line)| == |line| || line[|DateText(line)|] == ' '
  {
    var i := FirstOf(line, ' ');
    var rest := line[i + 1..];
    var j := FirstOf(rest, ' ');
    FirstOfIn(line, ' ');
    assert DateText(line) == line[..i + 1 + j] by {
      assert line[..i + 1 + j] == line[..i] + [line[i]] + rest[..j];
    }
    FirstOfNone(line, ' ');
    FirstOfNone(rest, ' ');
    OneSpace(line[..i], rest[..j]);
    if j < |rest| {
      FirstOfIn(rest, ' ');
    }
  }

  lemma OneSpace(a: string, b: string)
    requires ' ' !in a && ' ' !in b
    ensures Count(a + " " + b, ' ') == 1
  {
    assert a + " " + b == a + (" " + b);
    CountAppend(a, " " + b, ' ');
    CountAppend(" ", b, ' ');
    assert Count(" ", ' ') == 1 by { assert " "[1..] == ""; }
    NotInCount(a, ' ');
    NotInCount(b, ' ');
  }

  lemma FirstOfIn(s: string, c: char)
    requires c in s
    ensures FirstOf(s, c) < |s| && s[FirstOf(s, c)] == c
  {
  }

  lemma FirstOfNone(s: string, c: char)
    ensures c !in s[..FirstOf(s, c)]
  {
  }

  /** A line the scan counts: it mentions the marker and carries a time
      after the last check. */
  predicate RecentLine(line: string, lastCheck: Option<int>, parse: string -> Option<int>) {
    Contains(line, Marker) && ParseTimestamp(line, parse).Some? && After(ParseTimestamp(line, parse).value, lastCheck)
  }

  /** Some line among the first thousand is recent. */
  predicate RecentIn(lines: seq<string>, lastCheck: Option<int>, parse: string -> Option<int>) {
    exists i :: 0 <= i < |lines| && i < MaxLines && RecentLine(lines[i], lastCheck, parse)
  }

  /** hasRecentActivity: reads at most a thousand lines and answers true at
      the first activity line whose time parses and is after lastCheck. */
  method HasRecentActivity(output: string, lastCheck: Option<int>, parse: string -> Option<int>) returns (r: bool)
    ensures r <==> RecentIn(ScanLines(output), lastCheck, parse)
  {
    var lines := ScanLines(output);
    var lineCount := 0;
    while lineCount < |lines| && lineCount < MaxLines
      invariant 0 <= lineCount <= |lines| && lineCount <= MaxLines
      invariant forall k :: 0 <= k < lineCount ==> !RecentLine(lines[k], lastCheck, parse)
      decreases |lines| - lineCount
    {
      var line := lines[lineCount];
      lineCount := lineCount + 1;
      if Contains(line, Marker) {
        var timestamp := ParseTimestamp(line, parse);
        if timestamp.Some? && After(timestamp.value, lastCheck) {
          return true;
        }
      }
    }
    return false;
  }

  /** The monitoring goroutine's variables. `events` lists the times of
      the keyboard events handed to the handler. */
  class Monitor {
    var lastActivity: Option<int>
    var lastLogTime: Option<int>
    var events: seq<int>

    /** Raised events are at least five seconds apart, and lastActivity is
        the latest of them (zero before the first). */
    ghost predicate Valid()
      reads this
    {
      (events == [] <==> lastActivity.None?)
      && (events != [] ==> lastActivity == Some(events[|events| - 1]))
      && forall i :: 0 < i < |events| ==> events[i] - events[i - 1] >= MinGap
    }

    constructor ()
      ensures Valid() && lastActivity.None? && lastLogTime.None? && events == []
    {
      lastActivity := None;
      lastLogTime := None;
      events := [];
    }

    /** One tick of monitorUserActivity. `output` is the log tail, None
        when the command failed; `now` is the time read after the scan.
        A failed command changes nothing. Otherwise an event is raised
        when there is recent activity and at least five seconds have
        passed since the previous event, and the check time advances. */
    method Check(output: Option<string>, now: int, parse: string -> Option<int>) returns (fired: bool)
      modifies this
      requires Valid()
      ensures Valid()
      ensures output.None? ==> !fired && lastActivity == old(lastActivity) && lastLogTime == old(lastLogTime)
                               && events == old(events)
      ensures output.Some? ==> lastLogTime == Some(now)
      ensures fired <==> output.Some? && RecentIn(ScanLines(output.value), old(lastLogTime), parse)
                         && (old(lastActivity).None? || now - old(lastActivity).value >= MinGap)
      ensures fired ==> lastActivity == Some(now) && events == old(events) + [now]
      ensures !fired ==> lastActivity == old(lastActivity) && events == old(events)
    {
      if output.None? {
        return false;
      }
      var recent := HasRecentActivity(output.value, lastLogTime, parse);
      fired := false;
      if recent && (lastActivity.None? || now - lastActivity.value >= MinGap) {
        events := events + [now];
        lastActivity := Some(now);
        fired := true;
      }
      lastLogTime := Some(now);
    }
  }
}
