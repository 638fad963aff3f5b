/**
 * Byte-level collaborators of the KNXnet/IP connection-management codec:
 * the byte type, the host info record (treated as an opaque value with a
 * fixed encoded length), the sequential field readers the unpack helper
 * walks a frame with, and the field writer that concatenates encodings.
 */
module Wire {

  newtype byte = x: int | 0 <= x < 256

  datatype Option<+T> = None | Some(value: T)

  /** Encoded length of a host info record (a KNXnet/IP HPAI is 8 bytes). */
  const HL: nat := 8

  /** The HL bytes a host info record is written as. */
  type HostBytes = s: seq<byte> | |s| == HL witness [0, 0, 0, 0, 0, 0, 0, 0]

  /**
   * Host info is defined outside the connection-management core; here it
   * is an opaque record identified by its encoding.
   */
  datatype HostInfo = HostInfo(raw: HostBytes)

  function HostEncode(h: HostInfo): (s: seq<byte>)
    ensures |s| == HL
  {
    h.raw
  }

  /** Decoding HL bytes gives the record those bytes encode. */
  function HostDecode(s: seq<byte>): (h: HostInfo)
    requires |s| == HL
    ensures HostEncode(h) == s
  {
    HostInfo(s)
  }

  lemma HostRoundTrip(h: HostInfo)
    ensures HostDecode(HostEncode(h)) == h
  {
  }

  // ---------------------------------------------------------------------
  // Reading: a cursor offset into the input; a field that does not fit in
  // what is left of the input is not read.
  // ---------------------------------------------------------------------

  /** The byte at the cursor, or None when the input is exhausted. */
  function ReadU8(data: seq<byte>, at: nat): (r: Option<byte>)
    ensures r.Some? <==> at < |data|
    ensures r.Some? ==> r.value == data[at]
  {
    if at < |data| then Some(data[at]) else None
  }

  /** The host info record starting at the cursor, or None when fewer than HL bytes remain. */
  function ReadHost(data: seq<byte>, at: nat): (r: Option<HostInfo>)
    ensures r.Some? <==> at + HL <= |data|
    ensures r.Some? ==> HostEncode(r.value) == data[at..at + HL]
  {
    if at + HL <= |data| then Some(HostDecode(data[at..at + HL])) else None
  }

  // ---------------------------------------------------------------------
  // Writing: every field is written in order, each as its own encoding.
  // ---------------------------------------------------------------------

  datatype Field = U8(u8: byte) | Host(host: HostInfo) | Bytes(bytes: seq<byte>)

  function Encoded(f: Field): seq<byte>
  {
    match f
    case U8(b) => [b]
    case Host(h) => HostEncode(h)
    case Bytes(bs) => bs
  }

  /** What writing the fields one after another to a sink appends to it. */
  function WriteSome(fields: seq<Field>): seq<byte>
  {
    if fields == [] then [] else Encoded(fields[0]) + WriteSome(fields[1..])
  }

  /** Writing two runs of fields is writing their concatenation. */
  lemma {:induction false} WriteSomeAppend(a: seq<Field>, b: seq<Field>)
    ensures WriteSome(a + b) == WriteSome(a) + WriteSome(b)
  {
    if a == [] {
      assert a + b == b;
    } else {
      assert (a + b)[1..] == a[1..] + b;
      WriteSomeAppend(a[1..], b);
    }
  }
}
