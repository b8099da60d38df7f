/** The user side of the exchange area: copies between the area and the task's own buffers. */
module UserLibrary {
  import opened Exchange

  /** Decodes the event in the area into `data`. */
  method EventFromKernel(area: array<byte>, data: array<byte>) returns (ok: bool, kind: byte, length: byte, source: nat)
    requires area.Length == AREA_LEN && area != data
    modifies data
    ensures ok <==> FromKernel(area[..], data.Length).Received?
    ensures ok ==>
              && length as int <= data.Length
              && Received(Event(kind, length, source, data[..length])) == FromKernel(old(area[..]), data.Length)
              && data[length..] == old(data[..])[length..]
    ensures !ok ==> data[..] == old(data[..])
  {
    ok, kind, length := false, area[0], area[1];
    source := FromLe32(area[4..8]);
    if (area[2] as int) + 256 * (area[3] as int) != MAGIC {
      return;
    }
    if HEADER_LEN + length as int > AREA_LEN || length as int > data.Length {
      return;
    }
    ghost var was := data[..];
    for i := 0 to length as int
      invariant data[..i] == area[HEADER_LEN..HEADER_LEN + i]
      invariant data[i..] == was[i..]
    {
      assert was[i..][1..] == was[i + 1..];
      data[i] := area[HEADER_LEN + i];
      assert data[..i + 1] == data[..i] + [data[i]];
    }
    ok := true;
    assert area[..][4..8] == area[4..8];
    assert area[..][HEADER_LEN..HEADER_LEN + length as int] == area[HEADER_LEN..HEADER_LEN + length as int];
  }

  /** Copies a buffer to the area, at most as much as the area holds. */
  method BytesToKernel(area: array<byte>, data: array<byte>)
    requires area.Length == AREA_LEN && area != data
    modifies area
    ensures area[..] == ToKernel(old(area[..]), data[..])
  {
    ghost var was := area[..];
    var n := if data.Length < AREA_LEN then data.Length else AREA_LEN;
    for i := 0 to n
      invariant area[..i] == data[..i] && area[i..] == was[i..]
    {
      assert was[i..][1..] == was[i + 1..];
      area[i] := data[i];
      assert area[..i + 1] == area[..i] + [area[i]];
    }
    assert area[..] == area[..n] + area[n..];
  }

  /** What the kernel has written is what the task receives, in a buffer with room for it. */
  method Receive(area: array<byte>, data: array<byte>, ghost before: seq<byte>, ghost kind: byte, ghost peer: nat,
                 ghost text: seq<byte>)
    returns (ok: bool, event: byte, length: byte, source: nat)
    requires area.Length == AREA_LEN && area != data && |before| == AREA_LEN && |text| <= MAX_PAYLOAD
    requires peer < 0x1_0000_0000 && area[..] == WriteEvent(before, kind, peer, text)
    modifies data
    ensures ok <==> |text| <= data.Length
    ensures ok ==> event == kind && length as int == |text| && source == peer && data[..length] == text
  {
    EventRoundTrip(before, kind, peer, text, data.Length);
    ok, event, length, source := EventFromKernel(area, data);
  }
}
