/** The kernel/user exchange area: event encoding on the kernel side, decoding on the user side. */
module Exchange {

  const AREA_LEN := 128
  const HEADER_LEN := 8
  const MAX_PAYLOAD := 120   // AREA_LEN - HEADER_LEN
  const MAGIC := 0x4242

  const EVENT_IPC: bv8 := 1
  const EVENT_SIGNAL: bv8 := 2
  const EVENT_IRQ: bv8 := 4
  const EVENT_DMA: bv8 := 8

  type byte = x: int | 0 <= x < 256

  predicate Wants(mask: bv8, kind: bv8) {
    mask & kind != 0
  }

  /** Little-endian encoding of the low 32 bits. */
  function Le32(v: nat): (b: seq<byte>)
    ensures |b| == 4
  {
    [v % 256, v / 256 % 256, v / 65536 % 256, v / 16777216 % 256]
  }

  function FromLe32(b: seq<byte>): nat
    requires |b| == 4
  {
    (b[0] as int) + 256 * (b[1] as int) + 65536 * (b[2] as int) + 16777216 * (b[3] as int)
  }

  function Header(kind: byte, length: byte, source: nat): (b: seq<byte>)
    ensures |b| == HEADER_LEN
  {
    [kind, length, MAGIC % 256, MAGIC / 256] + Le32(source)
  }

  /** The area after the kernel has written an event into it: header, payload, old tail. */
  function WriteEvent(area: seq<byte>, kind: byte, source: nat, data: seq<byte>): (r: seq<byte>)
    requires |area| == AREA_LEN && |data| <= MAX_PAYLOAD
    ensures |r| == AREA_LEN
  {
    Header(kind, |data|, source) + data + area[HEADER_LEN + |data|..]
  }

  datatype Event = Event(kind: byte, length: byte, source: nat, data: seq<byte>)
  datatype Decoded = Received(event: Event) | Rejected

  /** The user library's decoder, for a destination buffer of `room` bytes. */
  function FromKernel(area: seq<byte>, room: nat): Decoded
    requires |area| == AREA_LEN
  {
    var magic := (area[2] as int) + 256 * (area[3] as int);
    var length := area[1] as int;
    if magic != MAGIC then Rejected
    else if HEADER_LEN + length > AREA_LEN then Rejected
    else if length > room then Rejected
    else
      var source := FromLe32(area[4..8]);
      Received(Event(area[0], length, source, area[HEADER_LEN..HEADER_LEN + length]))
  }

  /** The user library's copy of a message into its own area. */
  function ToKernel(area: seq<byte>, data: seq<byte>): (r: seq<byte>)
    requires |area| == AREA_LEN
    ensures |r| == AREA_LEN
  {
    if |data| >= AREA_LEN then data[..AREA_LEN] else data + area[|data|..]
  }

  lemma Le32RoundTrip(v: nat)
    requires v < 0x1_0000_0000
    ensures FromLe32(Le32(v)) == v
  {
    assert v / 65536 == v / 256 / 256;
    assert v / 16777216 == v / 65536 / 256;
  }

  /** Only 32 bits are encoded. */
  lemma Le32Word(v: nat)
    ensures FromLe32(Le32(v)) == v % 0x1_0000_0000
  {
    var a := v / 256;
    var b := a / 256;
    var c := b / 256;
    assert v / 65536 == b && v / 16777216 == c;
    var word := v % 256 + 256 * (a % 256) + 65536 * (b % 256) + 16777216 * (c % 256);
    assert v == word + 0x1_0000_0000 * (c / 256);
    assert 0 <= word < 0x1_0000_0000;
  }

  /** An event of any source, of which 32 bits arrive. */
  lemma EventArrives(area: seq<byte>, kind: byte, source: nat, data: seq<byte>, room: nat)
    requires |area| == AREA_LEN && |data| <= MAX_PAYLOAD && |data| <= room
    ensures FromKernel(WriteEvent(area, kind, source, data), room) ==
            Received(Event(kind, |data|, source % 0x1_0000_0000, data))
  {
    Le32Word(source);
    var w := WriteEvent(area, kind, source, data);
    assert w[4..8] == Le32(source);
    assert w[HEADER_LEN..HEADER_LEN + |data|] == data;
  }

  /** What the kernel writes is what the user decodes, whenever the user's buffer has room. */
  lemma EventRoundTrip(area: seq<byte>, kind: byte, source: nat, data: seq<byte>, room: nat)
    requires |area| == AREA_LEN && |data| <= MAX_PAYLOAD && source < 0x1_0000_0000
    ensures FromKernel(WriteEvent(area, kind, source, data), room) ==
            if |data| <= room then Received(Event(kind, |data|, source, data)) else Rejected
  {
    Le32RoundTrip(source);
    var w := WriteEvent(area, kind, source, data);
    assert w[4..8] == Le32(source);
    assert w[HEADER_LEN..HEADER_LEN + |data|] == data;
  }
}
