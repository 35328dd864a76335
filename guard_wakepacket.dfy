/** The greenwake-guard wake-packet listener: a receive loop over a UDP
    socket that hands every magic packet to the wake-lock service as a
    "wol" wake event. The socket is replaced by the sequence of read
    outcomes it delivers; cancellation by Stop from another goroutine is
    not interleaved with the loop. */
module GuardWakePacket {
  import opened MagicPacket
  import GuardWakeLock

  /** One outcome of a loop iteration: setting the read deadline failed, a
      datagram was read, the read timed out, the read failed because the
      connection was closed, or it failed for another reason. */
  datatype ReadEvent =
    | DeadlineError
    | Datagram(data: seq<byte>)
    | ReadTimeout
    | ConnClosed
    | ReadFailed

  /** The effect of one iteration on the wake-lock service. */
  function Step(s: GuardWakeLock.State, e: ReadEvent): (r: GuardWakeLock.State)
  {
    if e.Datagram? && IsMagic(e.data) then GuardWakeLock.Woken(s, "wol") else s
  }

  /** The effect of a run of iterations, none of which closed the loop. */
  function Run(s: GuardWakeLock.State, es: seq<ReadEvent>): (r: GuardWakeLock.State)
  {
    if es == [] then s else Step(Run(s, es[..|es| - 1]), es[|es| - 1])
  }

  /** Index of the first event that ends the loop, or |es|. */
  function Live(es: seq<ReadEvent>): (n: nat)
    ensures n <= |es| && (forall i :: 0 <= i < n ==> !es[i].ConnClosed?)
    ensures n < |es| ==> es[n].ConnClosed?
  {
    if es == [] then 0 else if es[0].ConnClosed? then 0 else 1 + Live(es[1..])
  }

  /** What the loop does to the service: every event before the first
      closed-connection error, in order. */
  function Delivered(s: GuardWakeLock.State, es: seq<ReadEvent>): (r: GuardWakeLock.State)
  {
    Run(s, es[..Live(es)])
  }

  predicate IsWake(e: ReadEvent) {
    e.Datagram? && IsMagic(e.data)
  }

  /** How many magic packets a run contains. */
  function Wakes(es: seq<ReadEvent>): (n: nat)
    ensures n <= |es|
  {
    if es == [] then 0 else Wakes(es[..|es| - 1]) + (if IsWake(es[|es| - 1]) then 1 else 0)
  }

  /** Only datagrams that pass the magic-packet check reach the service:
      a run without one leaves the service exactly as it was. */
  lemma {:induction false} NonMagicIgnored(s: GuardWakeLock.State, es: seq<ReadEvent>)
    requires forall i :: 0 <= i < |es| ==> !IsWake(es[i])
    ensures Run(s, es) == s
  {
    if es != [] {
      NonMagicIgnored(s, es[..|es| - 1]);
    }
  }

  /** With "wol" among the valid events, each magic packet is one wake
      event: one more external-wake timeout is armed per packet, and after
      at least one the lock is held under a temporary wake. */
  lemma {:induction false} EachPacketWakes(s: GuardWakeLock.State, es: seq<ReadEvent>)
    requires "wol" in s.validEvents
    ensures Run(s, es).validEvents == s.validEvents
    ensures Run(s, es).pendingWakeTimeouts == s.pendingWakeTimeouts + Wakes(es)
    ensures Wakes(es) > 0 ==> Run(s, es).lockHeld && Run(s, es).temporaryWake
    ensures Wakes(es) > 0 ==> Run(s, es).lastWakeEvent == "wol"
  {
    if es != [] {
      EachPacketWakes(s, es[..|es| - 1]);
    }
  }

  /** Every reachable service state stays consistent. */
  lemma {:induction false} RunConsistent(s: GuardWakeLock.State, es: seq<ReadEvent>)
    requires GuardWakeLock.Consistent(s)
    ensures GuardWakeLock.Consistent(Run(s, es))
  {
    if es != [] {
      RunConsistent(s, es[..|es| - 1]);
    }
  }

  class Listener {
    const port: int
    const wolTimeout: int
    const wakeLock: GuardWakeLock.Service
    var connOpen: bool
    var cancelled: bool

    /** NewService: no socket yet, context live. */
    constructor (port: int, wolTimeout: int, wakeLock: GuardWakeLock.Service)
      ensures this.port == port && this.wolTimeout == wolTimeout && this.wakeLock == wakeLock
      ensures !connOpen && !cancelled
    {
      this.port := port;
      this.wolTimeout := wolTimeout;
      this.wakeLock := wakeLock;
      connOpen := false;
      cancelled := false;
    }

    /** Start: the socket is open when listening succeeded. */
    method Start(listenOk: bool) returns (ok: bool)
      modifies this
      ensures ok == listenOk && connOpen == (listenOk || old(connOpen))
      ensures cancelled == old(cancelled)
    {
      if listenOk {
        connOpen := true;
      }
      ok := listenOk;
    }

    /** Stop: cancel the context and drop the connection. Calling it again
        finds nothing to close and leaves the same state. */
    method Stop()
      modifies this
      ensures cancelled && !connOpen
    {
      cancelled := true;
      if connOpen {
        connOpen := false;
      }
    }

    /** listen, fed the read outcomes in order: returns at once when
        cancelled or without a connection, otherwise forwards each magic
        packet to the wake-lock service until the connection closes. */
    method Listen(es: seq<ReadEvent>)
      modifies wakeLock
      requires wakeLock.Valid()
      ensures wakeLock.Valid()
      ensures cancelled || !connOpen ==> wakeLock.Snapshot() == old(wakeLock.Snapshot())
      ensures !cancelled && connOpen ==> wakeLock.Snapshot() == Delivered(old(wakeLock.Snapshot()), es)
    {
      var i := 0;
      while i < |es|
        invariant i <= Live(es)
        invariant wakeLock.Valid()
        invariant wakeLock.Snapshot() == Run(old(wakeLock.Snapshot()), es[..i])
        invariant cancelled || !connOpen ==> i == 0
      {
        if cancelled || !connOpen {
          return;
        }
        var e := es[i];
        assert es[..i + 1][..i] == es[..i];
        match e {
          case Datagram(data) =>
            var isWake := IsWakePacket(data);
            if isWake {
              wakeLock.HandleWakePacket();
            }
          case ConnClosed =>
            assert Live(es) == i;
            return;
          case _ =>
        }
        i := i + 1;
      }
      assert es[..i] == es;
    }
  }
}
