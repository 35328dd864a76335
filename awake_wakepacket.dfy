/** The awake wake-packet listener: a receive loop that switches the
    wake-lock service from wol_wake to permanent on a magic packet, and
    asks for wol_wake again once no datagram has arrived for longer than
    the WOL timeout. Each read outcome carries the monotonic time (in
    nanoseconds) at which it happened. */
module AwakeWakePacket {
  import opened MagicPacket
  import AwakeWakeLock

  datatype ReadEvent =
    | Datagram(data: seq<byte>, at: int)
    | ReadTimeout(at: int)
    | ReadFailed

  /** The service state together with the loop's lastPacketTime. */
  datatype Listening = Listening(wake: AwakeWakeLock.State, lastPacketTime: int)

  /** One loop iteration. */
  function Step(l: Listening, wolTimeout: int, e: ReadEvent): (r: Listening)
  {
    match e
    case ReadTimeout(at) =>
      if at - l.lastPacketTime > wolTimeout && l.wake.strategy == AwakeWakeLock.WolWake then
        l.(wake := AwakeWakeLock.StrategySet(l.wake, AwakeWakeLock.WolWake, 0, at))
      else l
    case ReadFailed => l
    case Datagram(data, at) =>
      if IsMagic(data) && l.wake.strategy == AwakeWakeLock.WolWake then
        Listening(AwakeWakeLock.StrategySet(l.wake, AwakeWakeLock.Permanent, 0, at), at)
      else l.(lastPacketTime := at)
  }

  function Run(l: Listening, wolTimeout: int, es: seq<ReadEvent>): (r: Listening)
  {
    if es == [] then l else Step(Run(l, wolTimeout, es[..|es| - 1]), wolTimeout, es[|es| - 1])
  }

  /** A magic packet under wol_wake switches to permanent and takes the
      lock; under any other strategy the service is untouched. */
  lemma PacketEffect(l: Listening, wolTimeout: int, data: seq<byte>, at: int)
    requires AwakeWakeLock.Consistent(l.wake)
    ensures var r := Step(l, wolTimeout, Datagram(data, at));
      (IsMagic(data) && l.wake.strategy == AwakeWakeLock.WolWake ==>
         r.wake.strategy == AwakeWakeLock.Permanent && r.wake.lockHeld)
      && (!IsMagic(data) || l.wake.strategy != AwakeWakeLock.WolWake ==> r.wake == l.wake)
  {
    if IsMagic(data) && l.wake.strategy == AwakeWakeLock.WolWake {
      AwakeWakeLock.SetStrategyLock(l.wake, AwakeWakeLock.Permanent, 0, at);
    }
  }

  /** Every datagram read, wake packet or not, restarts the silence clock. */
  lemma DatagramResetsClock(l: Listening, wolTimeout: int, data: seq<byte>, at: int)
    ensures Step(l, wolTimeout, Datagram(data, at)).lastPacketTime == at
  {
  }

  /** The timeout branch asks for wol_wake while already under wol_wake,
      which is a no-op: a read timeout, like any other read error, changes
      nothing. */
  lemma TimeoutChangesNothing(l: Listening, wolTimeout: int, at: int)
    ensures Step(l, wolTimeout, ReadTimeout(at)) == l
    ensures Step(l, wolTimeout, ReadFailed) == l
  {
    if at - l.lastPacketTime > wolTimeout && l.wake.strategy == AwakeWakeLock.WolWake {
      AwakeWakeLock.SameStrategyNoOp(l.wake, 0, at);
    }
  }

  /** Only a magic packet can change the service: a run without one
      leaves it exactly as it was. */
  lemma {:induction false} NonMagicIgnored(l: Listening, wolTimeout: int, es: seq<ReadEvent>)
    requires forall i :: 0 <= i < |es| ==> !(es[i].Datagram? && IsMagic(es[i].data))
    ensures Run(l, wolTimeout, es).wake == l.wake
  {
    if es != [] {
      NonMagicIgnored(l, wolTimeout, es[..|es| - 1]);
      var e := es[|es| - 1];
      if e.ReadTimeout? {
        TimeoutChangesNothing(Run(l, wolTimeout, es[..|es| - 1]), wolTimeout, e.at);
      }
    }
  }

  /** The loop keeps the service's invariant. */
  lemma {:induction false} RunConsistent(l: Listening, wolTimeout: int, es: seq<ReadEvent>)
    requires AwakeWakeLock.Consistent(l.wake)
    ensures AwakeWakeLock.Consistent(Run(l, wolTimeout, es).wake)
  {
    if es != [] {
      var m := Run(l, wolTimeout, es[..|es| - 1]);
      RunConsistent(l, wolTimeout, es[..|es| - 1]);
      match es[|es| - 1]
      case Datagram(data, at) => PacketEffect(m, wolTimeout, data, at);
      case ReadTimeout(at) => TimeoutChangesNothing(m, wolTimeout, at);
      case ReadFailed =>
    }
  }

  class Listener {
    const port: int
    const wolTimeout: int
    const wakeLock: AwakeWakeLock.Service
    var connOpen: bool
    var cancelled: bool

    constructor (port: int, wolTimeout: int, wakeLock: AwakeWakeLock.Service)
      ensures this.port == port && this.wolTimeout == wolTimeout && this.wakeLock == wakeLock
      ensures !connOpen && !cancelled
    {
      this.port := port;
      this.wolTimeout := wolTimeout;
      this.wakeLock := wakeLock;
      connOpen := false;
      cancelled := false;
    }

    /** Start: the socket is open when listening succeeded. */
    method Start(listenOk: bool) returns (ok: bool)
      modifies this
      ensures ok == listenOk && connOpen == (listenOk || old(connOpen))
      ensures cancelled == old(cancelled)
    {
      if listenOk {
        connOpen := true;
      }
      ok := listenOk;
    }

    /** Stop: cancel the context and close the socket if there is one. */
    method Stop()
      modifies this
      ensures cancelled && !connOpen
    {
      cancelled := true;
      if connOpen {
        connOpen := false;
      }
    }

    /** listen, started at time `start`, fed the read outcomes in order;
        returns the final lastPacketTime. */
    method Listen(start: int, es: seq<ReadEvent>) returns (lastPacketTime: int)
      modifies wakeLock
      requires wakeLock.Valid()
      ensures wakeLock.Valid()
      ensures cancelled ==> wakeLock.Snapshot() == old(wakeLock.Snapshot()) && lastPacketTime == start
      ensures !cancelled ==>
        Listening(wakeLock.Snapshot(), lastPacketTime)
          == Run(Listening(old(wakeLock.Snapshot()), start), wolTimeout, es)
    {
      lastPacketTime := start;
      if cancelled {
        return;
      }
      var i := 0;
      while i < |es|
        invariant i <= |es|
        invariant wakeLock.Valid()
        invariant Listening(wakeLock.Snapshot(), lastPacketTime)
          == Run(Listening(old(wakeLock.Snapshot()), start), wolTimeout, es[..i])
      {
        var e := es[i];
        assert es[..i + 1][..i] == es[..i];
        match e {
          case ReadTimeout(at) =>
            if at - lastPacketTime > wolTimeout && wakeLock.strategy == AwakeWakeLock.WolWake {
              wakeLock.SetStrategy(AwakeWakeLock.WolWake, 0, at);
            }
          case ReadFailed =>
          case Datagram(data, at) =>
            lastPacketTime := at;
            var isWake := IsWakePacket(data);
            if isWake && wakeLock.strategy == AwakeWakeLock.WolWake {
              wakeLock.SetStrategy(AwakeWakeLock.Permanent, 0, at);
            }
        }
        i := i + 1;
      }
      assert es[..i] == es;
    }
  }
}
