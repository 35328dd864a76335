/** The macOS device monitor of greenwake-guard: user activity is read
    from the power-management assertions every 15 seconds, and the monitor
    is switched on and off by the "device" wake source of the
    configuration. The goroutine and the ticker are reduced to explicit
    steps: each started loop is counted, and one loop iteration is a call
    with the command's output (None when the command failed). */
module GuardDeviceMonitor {
  import opened GoText
  import GuardConfig
  import GuardEventType

  const Marker: string := "UserIsActive"

  /** Some line of the output carries the user-activity marker. */
  predicate AnyActiveLine(lines: seq<string>) {
    exists i :: 0 <= i < |lines| && Contains(lines[i], Marker)
  }

  /** hasUserActivity: scans every line and reports whether any of them
      mentions the marker. */
  method HasUserActivity(output: string) returns (r: bool)
    ensures r <==> AnyActiveLine(ScanLines(output))
  {
    var lines := ScanLines(output);
    r := false;
    for i := 0 to |lines|
      invariant r <==> AnyActiveLine(lines[..i])
    {
      assert lines[..i + 1][..i] == lines[..i];
      if Contains(lines[i], Marker) {
        r := true;
      }
      assert AnyActiveLine(lines[..i + 1]) <==> AnyActiveLine(lines[..i]) || Contains(lines[i], Marker);
    }
    assert lines[..|lines|] == lines;
  }

  /** The configuration lists "device" among its wake sources. */
  predicate DeviceEnabled(c: GuardConfig.Config) {
    GuardEventType.Device in GuardConfig.GetValidEvents(c.externalWake)
  }

  /** What one pass of monitorUserActivity's loop does. */
  datatype Step = Exit | Quiet | Wake

  class Monitor {
    var config: Option<GuardConfig.Config>
    var monitoring: bool
    var doneClosed: bool    // the current done channel has been closed
    var loopsStarted: nat   // monitorUserActivity goroutines started so far
    var events: nat         // device wake events handed to the handler

    /** newPlatformDeviceMonitor: not monitoring, with an open done channel. */
    constructor ()
      ensures config.None? && !monitoring && !doneClosed && loopsStarted == 0 && events == 0
    {
      config := None;
      monitoring := false;
      doneClosed := false;
      loopsStarted := 0;
      events := 0;
    }

    /** Start: monitoring on, one more loop. */
    method Start()
      modifies this
      ensures monitoring && loopsStarted == old(loopsStarted) + 1
      ensures config == old(config) && doneClosed == old(doneClosed) && events == old(events)
    {
      monitoring := true;
      loopsStarted := loopsStarted + 1;
    }

    /** Stop closes done; closing it a second time panics. */
    method Stop() returns (panicked: bool)
      modifies this
      ensures panicked <==> old(doneClosed)
      ensures doneClosed
      ensures config == old(config) && monitoring == old(monitoring) && loopsStarted == old(loopsStarted)
      ensures events == old(events)
    {
      panicked := doneClosed;
      doneClosed := true;
    }

    /** UpdateConfig: the configuration is always stored. With "device" a
        valid wake source, monitoring is switched on and a loop started only
        if it was off; otherwise monitoring is switched off, and done closed
        and replaced by a fresh channel, only if it was on. When Stop has
        already closed done, that close panics before the replacement, so
        done stays closed. A second call with the same configuration
        therefore starts and stops nothing. */
    method UpdateConfig(c: GuardConfig.Config) returns (panicked: bool)
      modifies this
      ensures config == Some(c)
      ensures monitoring <==> DeviceEnabled(c)
      ensures loopsStarted == old(loopsStarted) + (if monitoring && !old(monitoring) then 1 else 0)
      ensures panicked <==> !monitoring && old(monitoring) && old(doneClosed)
      ensures doneClosed == old(doneClosed)
      ensures events == old(events)
    {
      var valid := GuardConfig.IsEventTypeValid(c, GuardEventType.Device);
      assert valid == DeviceEnabled(c);
      config := Some(c);
      panicked := false;
      if valid {
        if !monitoring {
          monitoring := true;
          loopsStarted := loopsStarted + 1;
        }
      } else {
        if monitoring {
          monitoring := false;
          if doneClosed {
            return true;
          }
          // the closed channel is replaced by a fresh one: doneClosed stays false
        }
      }
    }

    /** One pass of monitorUserActivity: the loop ends once monitoring is
        off or done is closed; otherwise a successful check with the marker
        in some line hands one device event to the handler. */
    method MonitorStep(output: Option<string>) returns (s: Step)
      modifies this
      ensures !old(monitoring) || old(doneClosed) ==> s == Exit
      ensures old(monitoring) && !old(doneClosed) ==>
        (s == Wake <==> output.Some? && AnyActiveLine(ScanLines(output.value)))
      ensures events == old(events) + (if s == Wake then 1 else 0)
      ensures config == old(config) && monitoring == old(monitoring) && doneClosed == old(doneClosed)
      ensures loopsStarted == old(loopsStarted)
    {
      if !monitoring || doneClosed {
        return Exit;
      }
      if output.None? {
        return Quiet;
      }
      var active := HasUserActivity(output.value);
      if active {
        events := events + 1;
        return Wake;
      }
      return Quiet;
    }
  }
}
