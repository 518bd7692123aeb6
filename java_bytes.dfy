/** Java's signed bytes and the unsigned integers the hash log records for them. */
module JavaBytes {

  /** A Java `byte`: a signed two's-complement 8-bit value. */
  newtype Byte = x: int | -0x80 <= x < 0x80

  /** `b & 0xFF`: the byte read as an unsigned value, the unique integer in 0..255
      that is congruent to `b` modulo 256. */
  function Unsigned(b: Byte): (r: int)
    ensures 0 <= r < 0x100
    ensures (r - b as int) % 0x100 == 0
    ensures 0 <= b ==> r == b as int
  {
    if b < 0 then b as int + 0x100 else b as int
  }

  /** The inverse of `Unsigned`: the signed byte whose low eight bits are `u`. */
  function Signed(u: int): (b: Byte)
    requires 0 <= u < 0x100
    ensures Unsigned(b) == u
  {
    if u < 0x80 then u as Byte else (u - 0x100) as Byte
  }

  /** Every byte of `bytes` mapped through `b & 0xFF`, in order: the payload of one log entry. */
  function Payload(bytes: seq<Byte>): seq<int>
  {
    seq(|bytes|, i requires 0 <= i < |bytes| => Unsigned(bytes[i]))
  }

  /** Whether every element of `payload` is an unsigned byte value. */
  predicate IsOctets(payload: seq<int>)
  {
    forall i :: 0 <= i < |payload| ==> 0 <= payload[i] < 0x100
  }

  /** Reads a payload back as the Java bytes it records. */
  function Restore(payload: seq<int>): (r: seq<Byte>)
    requires IsOctets(payload)
    ensures |r| == |payload|
    ensures forall i :: 0 <= i < |r| ==> Unsigned(r[i]) == payload[i]
  {
    if payload == [] then [] else [Signed(payload[0])] + Restore(payload[1..])
  }

  /** A log payload records its bytes faithfully: every element is in 0..255 and the
      bytes can be read back from it unchanged. */
  lemma RestorePayload(bytes: seq<Byte>)
    ensures IsOctets(Payload(bytes))
    ensures Restore(Payload(bytes)) == bytes
  {
  }
}
