/** The wake-source setting of awake's WOL configuration: a comma-separated
    list of event types, trimmed piece by piece. */
module AwakeWolConfig {
  import opened GoText

  datatype WolWakeConfig = WolWakeConfig(wolPort: int, wolTimeoutSecs: int, validEvents: string)

  const DefaultEvents: seq<string> := ["wol", "keyboard", "mouse"]

  /** WolWakeConfig.GetValidEvents: an empty setting means wol, keyboard and
      mouse; otherwise the setting is split at every comma and each piece
      is trimmed in place, in order. */
  method GetValidEvents(c: WolWakeConfig) returns (events: seq<string>)
    ensures c.validEvents == "" ==> events == DefaultEvents
    ensures c.validEvents != "" ==> |events| == |Split(c.validEvents, ',')| == Count(c.validEvents, ',') + 1
    ensures c.validEvents != "" ==>
      forall i :: 0 <= i < |events| ==> events[i] == TrimSpace(Split(c.validEvents, ',')[i])
    ensures forall i :: 0 <= i < |events| ==> Trimmed(events[i]) && ',' !in events[i]
  {
    if c.validEvents == "" {
      DefaultsTrimmed();
      return DefaultEvents;
    }
    var pieces := Split(c.validEvents, ',');
    SplitCount(c.validEvents, ',');
    events := pieces;
    for i := 0 to |events|
      invariant |events| == |pieces|
      invariant forall k :: 0 <= k < i ==> events[k] == TrimSpace(pieces[k])
      invariant forall k :: i <= k < |events| ==> events[k] == pieces[k]
    {
      events := events[i := TrimSpace(events[i])];
    }
    forall i | 0 <= i < |events|
      ensures ',' !in events[i]
    {
      TrimmedPieceIn(pieces[i], ',');
    }
  }

  lemma DefaultsTrimmed()
    ensures forall i :: 0 <= i < |DefaultEvents| ==> Trimmed(DefaultEvents[i]) && ',' !in DefaultEvents[i]
  {
    assert DefaultEvents[0] == "wol" && DefaultEvents[1] == "keyboard" && DefaultEvents[2] == "mouse";
  }

  /** A trimmed piece is part of the piece, so it has no separator in it. */
  lemma TrimmedPieceIn(s: string, c: char)
    requires c !in s
    ensures c !in TrimSpace(s)
  {
    var l := TrimLeft(s);
    forall k | 0 <= k < |l| ensures l[k] != c {
      assert l[k] == s[|s| - |l| + k];
    }
    var r := TrimRight(l);
    forall k | 0 <= k < |r| ensures r[k] != c {
      assert r[k] == l[k];
    }
    assert TrimSpace(s) == r;
  }
}
