/** The tray service: list helpers for the wake-source menu, the "checked"
    marks of the timed-wake menu, the settings written back to the
    configuration, and the bookkeeping of updateMenuItemStates. The menu
    widgets themselves are left out. The service drives the wake-lock
    service whose getters and setters it calls (strategy, sleep mode,
    duration, valid events, wake timeout). That service is the guard's
    `GuardWakeLock.Service`: the tray imports the awake package's wake-lock
    service by name, but only the guard's service has the valid-event and
    timeout accessors and the save-config callback the tray calls. */
module AwakeTray {
  import opened GoText
  import GuardWakeLock
  import GuardConfig

  const Minute: int := 60 * GuardWakeLock.NanosPerSecond
  const Hour: int := 60 * Minute

  /** The preset lengths of the timed-wake menu. */
  const Presets: seq<int> := [30 * Minute, Hour, 2 * Hour, 4 * Hour]

  // ---------------------------------------------------------------------
  // containsString and removeString

  /** containsString: a linear search. */
  method ContainsString(s: seq<string>, x: string) returns (r: bool)
    ensures r <==> x in s
  {
    for i := 0 to |s|
      invariant x !in s[..i]
    {
      if s[i] == x {
        return true;
      }
    }
    assert s[..|s|] == s;
    return false;
  }

  /** The elements of s other than x, in their original order. */
  function Removed(s: seq<string>, x: string): (r: seq<string>)
  {
    if s == [] then []
    else Removed(s[..|s| - 1], x) + (if s[|s| - 1] == x then [] else [s[|s| - 1]])
  }

  /** removeString: a fresh slice holding every element other than x. */
  method RemoveString(s: seq<string>, x: string) returns (r: seq<string>)
    ensures r == Removed(s, x)
  {
    r := [];
    for i := 0 to |s|
      invariant r == Removed(s[..i], x)
    {
      assert s[..i + 1][..i] == s[..i];
      if s[i] != x {
        r := r + [s[i]];
      }
    }
    assert s[..|s|] == s;
  }

  /** removeString drops every occurrence of x and keeps all other
      elements with their multiplicities; the list shrinks by the number
      of occurrences, and a list without x comes back unchanged. */
  lemma {:induction false} RemovedProperties(s: seq<string>, x: string)
    ensures x !in Removed(s, x)
    ensures multiset(Removed(s, x)) == multiset(s)[x := 0]
    ensures |Removed(s, x)| == |s| - multiset(s)[x]
    ensures x !in s ==> Removed(s, x) == s
  {
    if s != [] {
      var init, last := s[..|s| - 1], s[|s| - 1];
      RemovedProperties(init, x);
      var tail := if last == x then [] else [last];
      assert Removed(s, x) == Removed(init, x) + tail;
      GoText.FrontLast(s);
      assert multiset(s) == multiset(init) + multiset{last};
      assert multiset(Removed(s, x)) == multiset(Removed(init, x)) + multiset(tail);
    }
  }

  /** The wake-source menu action: remove every occurrence of the item if
      present, append it at the end otherwise. */
  function Toggled(s: seq<string>, x: string): (r: seq<string>)
  {
    if x in s then Removed(s, x) else s + [x]
  }

  /** A toggle flips membership, and toggling an absent item twice gives
      the list back. */
  lemma ToggleTwice(s: seq<string>, x: string)
    ensures x in Toggled(s, x) <==> x !in s
    ensures x !in s ==> Toggled(Toggled(s, x), x) == s
  {
    RemovedProperties(s, x);
    if x !in s {
      var t := s + [x];
      assert t[..|t| - 1] == s;
      RemovedProperties(s, x);
    }
  }

  // ---------------------------------------------------------------------
  // The checked marks of the timed-wake menu

  /** A preset item is checked under timed when the duration is that preset. */
  predicate PresetChecked(strategy: string, duration: int, preset: int) {
    strategy == GuardWakeLock.Timed && duration == preset
  }

  /** The custom item as createMenu marks it: 15 minutes counts as a preset
      there, although no 15-minute item exists. */
  predicate CustomCheckedInMenu(strategy: string, duration: int) {
    strategy == GuardWakeLock.Timed && duration != 15 * Minute && duration !in Presets
  }

  /** The custom item as updateModeStatus marks it. */
  predicate CustomCheckedOnUpdate(strategy: string, duration: int) {
    strategy == GuardWakeLock.Timed && duration !in Presets
  }

  /** Outside timed nothing in the time menu is checked. Under timed,
      updateModeStatus checks exactly one of the five items, while
      createMenu checks none of them for a 15-minute wake: the two marks
      of the custom item disagree exactly there. */
  lemma TimeMenuMarks(strategy: string, duration: int)
    ensures strategy != GuardWakeLock.Timed ==>
      !CustomCheckedInMenu(strategy, duration) && !CustomCheckedOnUpdate(strategy, duration)
      && forall p :: p in Presets ==> !PresetChecked(strategy, duration, p)
    ensures strategy == GuardWakeLock.Timed ==>
      (CustomCheckedOnUpdate(strategy, duration) <==> forall p :: p in Presets ==> !PresetChecked(strategy, duration, p))
    ensures forall i, j :: 0 <= i < j < |Presets| ==>
      !(PresetChecked(strategy, duration, Presets[i]) && PresetChecked(strategy, duration, Presets[j]))
    ensures CustomCheckedInMenu(strategy, duration) != CustomCheckedOnUpdate(strategy, duration)
      <==> strategy == GuardWakeLock.Timed && duration == 15 * Minute
  {
  }

  // ---------------------------------------------------------------------
  // SaveConfig's field mapping

  /** The configuration as SaveConfig rewrites it from the wake-lock
      service; durationText stands for time.Duration.String. */
  function SavedConfig(c: GuardConfig.Config, s: GuardWakeLock.State, durationText: int -> string): (r: GuardConfig.Config)
  {
    c.(strategy := s.strategy,
       sleepMode := s.sleepMode,
       timedDuration := if s.strategy == GuardWakeLock.Timed then durationText(s.duration) else c.timedDuration,
       externalWake := c.externalWake.(validEvents := Join(s.validEvents, ","), timeoutSecs := s.timeoutSecs))
  }

  /** Reading the saved wake sources back gives the service's list when it
      is non-empty, has no empty first entry and no commas inside; a list
      whose join is empty (none, or a single empty name) comes back as the
      built-in "wol,device" defaults. */
  lemma SavedEventsReload(c: GuardConfig.Config, s: GuardWakeLock.State, durationText: int -> string)
    ensures var saved := SavedConfig(c, s, durationText).externalWake;
      (Join(s.validEvents, ",") != "" && forall k :: 0 <= k < |s.validEvents| ==> ',' !in s.validEvents[k])
        ==> GuardConfig.GetValidEvents(saved) == s.validEvents
    ensures var saved := SavedConfig(c, s, durationText).externalWake;
      Join(s.validEvents, ",") == "" ==> GuardConfig.GetValidEvents(saved) == ["wol", "device"]
  {
    var events := s.validEvents;
    GuardConfig.ValidEventsPieces(SavedConfig(c, s, durationText).externalWake);
    if Join(events, ",") != "" && forall k :: 0 <= k < |events| ==> ',' !in events[k] {
      assert |events| >= 1;
      JoinSplit(events, ',');
      SplitJoin(Join(events, ","), ',');
    }
  }

  // ---------------------------------------------------------------------
  // The tray service

  class TrayService {
    const wakeLock: GuardWakeLock.Service
    var config: Option<GuardConfig.Config>  // None: no configuration set
    var currentMode: string
    var shown: bool     // the application is a desktop app and the tray is set up
    var hasMenu: bool
    var hasModeItem: bool
    var modeItemChecked: bool
    var remainingTime: string

    constructor (wakeLock: GuardWakeLock.Service)
      ensures this.wakeLock == wakeLock && config.None? && !hasMenu && !hasModeItem
      ensures currentMode == "" && remainingTime == "" && !modeItemChecked && !shown
    {
      this.wakeLock := wakeLock;
      config := None;
      currentMode := "";
      shown := false;
      hasMenu := false;
      hasModeItem := false;
      modeItemChecked := false;
      remainingTime := "";
    }

    /** createMenu: the remaining time is taken from the service and a new
        menu replaces the old one. */
    method CreateMenu()
      modifies this
      ensures hasMenu && remainingTime == wakeLock.FormatRemainingTime()
      ensures config == old(config) && currentMode == old(currentMode) && shown == old(shown)
      ensures hasModeItem == old(hasModeItem) && modeItemChecked == old(modeItemChecked)
    {
      remainingTime := wakeLock.FormatRemainingTime();
      hasMenu := true;
    }

    /** The tray part of Start: nothing when the translations cannot be
        loaded (`langOk`); otherwise, on a desktop application
        (`isDesktop`), the tray is set up with a fresh menu. Running the
        application's event loop is left out. */
    method Start(langOk: bool, isDesktop: bool)
      modifies this
      ensures shown == (old(shown) || (langOk && isDesktop))
      ensures langOk && isDesktop ==> hasMenu && remainingTime == wakeLock.FormatRemainingTime()
      ensures !(langOk && isDesktop) ==> hasMenu == old(hasMenu) && remainingTime == old(remainingTime)
      ensures config == old(config) && currentMode == old(currentMode)
      ensures hasModeItem == old(hasModeItem) && modeItemChecked == old(modeItemChecked)
    {
      if !langOk {
        return;
      }
      if isDesktop {
        shown := true;
        CreateMenu();
      }
    }

    /** The action of a wake-source item: toggle `item` in the service's
        list. SetValidEvents then runs the update callback, which rebuilds
        the menu when the tray is set up, and the save callback SaveConfig,
        which rewrites the configuration from the service and writes it
        (`durationText` and `writeOk` as for SaveConfig); its error is only
        logged. */
    method ToggleWakeSource(item: string, durationText: int -> string, writeOk: bool)
      modifies this, wakeLock
      requires wakeLock.Valid()
      ensures wakeLock.Valid()
      ensures wakeLock.Snapshot() == old(wakeLock.Snapshot()).(validEvents := Toggled(old(wakeLock.validEvents), item))
      ensures old(shown) ==> hasMenu && remainingTime == wakeLock.FormatRemainingTime()
      ensures !old(shown) ==> hasMenu == old(hasMenu) && remainingTime == old(remainingTime)
      ensures old(config).None? ==> config.None?
      ensures old(config).Some? ==> config == Some(SavedConfig(old(config).value, wakeLock.Snapshot(), durationText))
      ensures currentMode == old(currentMode) && shown == old(shown)
      ensures hasModeItem == old(hasModeItem) && modeItemChecked == old(modeItemChecked)
    {
      var events := wakeLock.validEvents;
      var present := ContainsString(events, item);
      if present {
        events := RemoveString(events, item);
      } else {
        events := events + [item];
      }
      wakeLock.SetValidEvents(events);
      if shown {
        CreateMenu();
      }
      var _ := SaveConfig(durationText, writeOk);
    }

    /** SaveConfig; `writeOk` says whether serialising and writing the file
        succeeded. Without a configuration it fails and changes nothing. */
    method SaveConfig(durationText: int -> string, writeOk: bool) returns (err: Option<string>)
      modifies this
      ensures old(config).None? ==> err.Some? && config == old(config)
      ensures old(config).Some? ==> config == Some(SavedConfig(old(config).value, wakeLock.Snapshot(), durationText))
      ensures old(config).Some? ==> (err.None? <==> writeOk)
      ensures currentMode == old(currentMode) && hasMenu == old(hasMenu) && remainingTime == old(remainingTime) && shown == old(shown)
      ensures hasModeItem == old(hasModeItem) && modeItemChecked == old(modeItemChecked)
    {
      if config.None? {
        return Some("config is nil");
      }
      var c := config.value;
      c := c.(strategy := wakeLock.strategy);
      c := c.(sleepMode := wakeLock.sleepMode);
      if wakeLock.strategy == GuardWakeLock.Timed {
        c := c.(timedDuration := durationText(wakeLock.duration));
      }
      c := c.(externalWake := c.externalWake.(validEvents := Join(wakeLock.validEvents, ",")));
      c := c.(externalWake := c.externalWake.(timeoutSecs := wakeLock.timeoutSecs));
      config := Some(c);
      if !writeOk {
        return Some("write config");
      }
      return None;
    }

    /** updateMenuItemStates: nothing without a menu; otherwise records the
        strategy, checks the mode item if there is one, and shows a positive
        duration as the remaining time. */
    method UpdateMenuItemStates(strategy: string, sleepMode: string, duration: int, durationText: int -> string)
      modifies this
      ensures !old(hasMenu) ==> currentMode == old(currentMode) && remainingTime == old(remainingTime)
                                && modeItemChecked == old(modeItemChecked)
      ensures old(hasMenu) ==> currentMode == strategy
      ensures old(hasMenu) ==> modeItemChecked == (old(modeItemChecked) || hasModeItem)
      ensures old(hasMenu) ==> remainingTime == if duration > 0 then durationText(duration) else old(remainingTime)
      ensures config == old(config) && hasMenu == old(hasMenu) && hasModeItem == old(hasModeItem) && shown == old(shown)
    {
      if !hasMenu {
        return;
      }
      currentMode := strategy;
      if hasModeItem {
        modeItemChecked := true;
      }
      if duration > 0 {
        remainingTime := durationText(duration);
      }
    }
  }
}
