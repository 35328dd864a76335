/** Recognition of a Wake-on-LAN magic packet: a 102-byte datagram whose
    first six bytes are the 0xFF synchronisation stream, followed by
    sixteen repetitions of the six-byte target MAC address. The same
    check appears in both wake-packet listeners. */
module MagicPacket {

  newtype byte = x: int | 0 <= x < 256

  const PacketLength: nat := 102
  const SyncLength: nat := 6
  const MacLength: nat := 6
  const MacRepeats: nat := 16

  /** The reference definition: exact length, and the sync stream first. */
  predicate IsMagic(data: seq<byte>) {
    |data| == PacketLength && forall i :: 0 <= i < SyncLength ==> data[i] == 0xFF
  }

  /** isWakePacket: length test, then a loop over the six sync bytes. */
  method IsWakePacket(data: seq<byte>) returns (r: bool)
    ensures r <==> IsMagic(data)
    ensures |data| != PacketLength ==> !r
  {
    if |data| != PacketLength {
      return false;
    }
    for i := 0 to SyncLength
      invariant forall j :: 0 <= j < i ==> data[j] == 0xFF
    {
      if data[i] != 0xFF {
        return false;
      }
    }
    return true;
  }

  /** `n` copies of `b`. */
  function Repeat(b: seq<byte>, n: nat): (r: seq<byte>)
    ensures |r| == n * |b|
  {
    if n == 0 then [] else b + Repeat(b, n - 1)
  }

  /** A standard magic packet for `mac`: the sync stream, then the MAC sixteen times. */
  function Build(mac: seq<byte>): (r: seq<byte>)
    requires |mac| == MacLength
  {
    Repeat([0xFF], SyncLength) + Repeat(mac, MacRepeats)
  }

  /** Every standard magic packet is recognised, whatever the MAC. */
  lemma BuildIsMagic(mac: seq<byte>)
    requires |mac| == MacLength
    ensures IsMagic(Build(mac))
  {
    var p := Build(mac);
    assert |p| == 6 + 16 * 6;
    assert p[..SyncLength] == Repeat([0xFF], SyncLength);
    forall i | 0 <= i < SyncLength
      ensures p[i] == 0xFF
    {
      RepeatElement([0xFF], SyncLength, i);
      assert p[i] == p[..SyncLength][i];
    }
  }

  lemma {:induction false} RepeatElement(b: seq<byte>, n: nat, i: nat)
    requires |b| == 1 && i < n
    ensures Repeat(b, n)[i] == b[0]
  {
    if i > 0 {
      RepeatElement(b, n - 1, i - 1);
    }
  }

  /** Only the length and the first six bytes matter: the MAC repetitions
      are never inspected, so two datagrams that agree on those are both
      accepted or both rejected. */
  lemma PayloadIgnored(a: seq<byte>, b: seq<byte>)
    requires |a| == |b| && |a| >= SyncLength && a[..SyncLength] == b[..SyncLength]
    ensures IsMagic(a) <==> IsMagic(b)
  {
    forall i | 0 <= i < SyncLength
      ensures a[i] == b[i]
    {
      assert a[i] == a[..SyncLength][i];
      assert b[i] == b[..SyncLength][i];
    }
  }
}
