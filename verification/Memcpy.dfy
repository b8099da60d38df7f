/** The kernel's memory copy, word by word and then byte by byte. */
module Memcpy {
  import opened Exchange

  const SPACE := 0x1_0000_0000    // 32-bit addresses

  /** The overlap test of the source, with 32-bit sums. */
  predicate TestsOverlap(a: nat, b: nat, n: nat) {
    (a < b && (a + n) % SPACE > b) || (a > b && (b + n) % SPACE > a)
  }

  predicate In(x: nat, a: nat, n: nat) {
    a <= x < a + n
  }

  /** Some byte belongs to both regions, which are not the same region. */
  ghost predicate Overlap(a: nat, b: nat, n: nat) {
    a != b && exists x :: In(x, a, n) && In(x, b, n)
  }

  /** For regions that fit the address space the test is exact. */
  lemma OverlapExact(a: nat, b: nat, n: nat)
    requires a + n <= SPACE && b + n <= SPACE
    ensures TestsOverlap(a, b, n) <==> Overlap(a, b, n)
    ensures !TestsOverlap(a, b, n) ==> n == 0 || a == b || a + n <= b || b + n <= a
  {
    if TestsOverlap(a, b, n) {
      var x := if a < b then b else a;
      assert In(x, a, n) && In(x, b, n);
    }
  }

  /** Memory `mem` with `n` bytes copied from `src` to `dest`. */
  function Copied(mem: seq<byte>, dest: nat, src: nat, n: nat): (r: seq<byte>)
    requires dest + n <= |mem| && src + n <= |mem|
    ensures |r| == |mem|
  {
    mem[..dest] + mem[src..src + n] + mem[dest + n..]
  }

  /** The first `done` bytes have been copied, and nothing else has changed. */
  ghost predicate Part(now: seq<byte>, was: seq<byte>, dest: nat, src: nat, done: nat) {
    && |now| == |was| && dest + done <= |was| && src + done <= |was|
    && (forall k :: dest <= k < dest + done ==> now[k] == was[src - dest + k])
    && (forall x :: 0 <= x < |was| && !(dest <= x < dest + done) ==> now[x] == was[x])
  }

  ghost predicate Apart(a: nat, b: nat, n: nat) {
    n == 0 || a == b || a + n <= b || b + n <= a
  }

  /** Word by word, as long as four bytes remain. */
  method CopyWords(mem: array<byte>, dest: nat, src: nat, n: nat) returns (done: nat)
    requires dest + n <= mem.Length && src + n <= mem.Length && Apart(dest, src, n)
    modifies mem
    ensures n - 4 < done <= n && Part(mem[..], old(mem[..]), dest, src, done)
  {
    ghost var was := mem[..];
    done := 0;
    while n - done >= 4
      invariant 0 <= done <= n && Part(mem[..], was, dest, src, done)
    {
      var s, d := src + done, dest + done;
      assert forall j :: s <= j < s + 4 ==> mem[j] == was[j];
      mem[d], mem[d + 1], mem[d + 2], mem[d + 3] := mem[s], mem[s + 1], mem[s + 2], mem[s + 3];
      done := done + 4;
    }
  }

  /** The bytes that remain. */
  method CopyBytes(mem: array<byte>, dest: nat, src: nat, n: nat, from: nat, ghost was: seq<byte>)
    requires dest + n <= mem.Length && src + n <= mem.Length && Apart(dest, src, n) && from <= n
    requires Part(mem[..], was, dest, src, from)
    modifies mem
    ensures Part(mem[..], was, dest, src, n)
  {
    var done := from;
    while done < n
      invariant from <= done <= n && Part(mem[..], was, dest, src, done)
    {
      mem[dest + done] := mem[src + done];
      done := done + 1;
    }
  }

  lemma WholeCopied(now: seq<byte>, was: seq<byte>, dest: nat, src: nat, n: nat)
    requires Part(now, was, dest, src, n)
    ensures now == Copied(was, dest, src, n)
  {
    assert now[dest..dest + n] == was[src..src + n];
    assert now == now[..dest] + now[dest..dest + n] + now[dest + n..];
  }

  /** Copies `n` bytes, or nothing for a null address or for regions that overlap. */
  method Copy(mem: array<byte>, dest: nat, src: nat, n: nat)
    requires mem.Length <= SPACE && dest + n <= mem.Length && src + n <= mem.Length
    modifies mem
    ensures mem[..] == if dest == 0 || src == 0 || Overlap(dest, src, n) then old(mem[..])
                       else Copied(old(mem[..]), dest, src, n)
  {
    OverlapExact(dest, src, n);
    if dest == 0 || src == 0 || TestsOverlap(dest, src, n) {
      return;
    }
    ghost var was := mem[..];
    var done := CopyWords(mem, dest, src, n);
    CopyBytes(mem, dest, src, n, done, was);
    WholeCopied(mem[..], was, dest, src, n);
  }

  // ---- A message between two exchange areas -------------------------------------------------------------

  /** The exchange area at address `a`. */
  function Area(mem: seq<byte>, a: nat): (r: seq<byte>)
    requires a + AREA_LEN <= |mem|
    ensures |r| == AREA_LEN
  {
    mem[a..a + AREA_LEN]
  }

  /** Memory with `data` stored at address `a`. */
  function Stored(mem: seq<byte>, a: nat, data: seq<byte>): (r: seq<byte>)
    requires a + |data| <= |mem|
    ensures |r| == |mem|
  {
    mem[..a] + data + mem[a + |data|..]
  }

  method StoreWord(mem: array<byte>, a: nat, word: seq<byte>)
    requires a + 4 <= mem.Length && |word| == 4
    modifies mem
    ensures mem[..] == Stored(old(mem[..]), a, word)
  {
    mem[a], mem[a + 1], mem[a + 2], mem[a + 3] := word[0], word[1], word[2], word[3];
  }

  lemma StoredInTurn(mem: seq<byte>, a: nat, first: seq<byte>, second: seq<byte>)
    requires a + |first| + |second| <= |mem|
    ensures Stored(Stored(mem, a, first), a + |first|, second) == Stored(mem, a, first + second)
  {
  }

  method StoreHeader(mem: array<byte>, a: nat, kind: byte, length: byte, source: nat)
    requires a + HEADER_LEN <= mem.Length
    modifies mem
    ensures mem[..] == Stored(old(mem[..]), a, Header(kind, length, source))
  {
    ghost var was := mem[..];
    hide Le32;
    var first := [kind, length, MAGIC % 256, MAGIC / 256];
    StoreWord(mem, a, first);
    StoreWord(mem, a + 4, Le32(source));
    StoredInTurn(was, a, first, Le32(source));
  }

  /** The bytes of one area go to another area, behind the header just stored there. */
  lemma CopiedBehindHeader(mem: seq<byte>, dest: nat, src: nat, header: seq<byte>, len: nat)
    requires dest + AREA_LEN <= |mem| && src + AREA_LEN <= |mem| && |header| == HEADER_LEN && len <= MAX_PAYLOAD
    requires dest + AREA_LEN <= src || src + AREA_LEN <= dest
    ensures Copied(Stored(mem, dest, header), dest + HEADER_LEN, src, len) ==
            Stored(mem, dest, header + Area(mem, src)[..len])
  {
    var m := Stored(mem, dest, header);
    assert m[src..src + len] == Area(mem, src)[..len];
  }

  lemma StoredArea(mem: seq<byte>, dest: nat, kind: byte, source: nat, data: seq<byte>)
    requires dest + AREA_LEN <= |mem| && |data| <= MAX_PAYLOAD
    ensures var now := Stored(mem, dest, Header(kind, |data|, source) + data);
            now == mem[..dest] + WriteEvent(Area(mem, dest), kind, source, data) + mem[dest + AREA_LEN..]
  {
    hide Header;
    var event := Header(kind, |data|, source) + data;
    assert Area(mem, dest)[HEADER_LEN + |data|..] + mem[dest + AREA_LEN..] == mem[dest + |event|..];
  }

  /** Delivering a message: the header is stored and the payload copied, so that the receiver's
      area becomes the one `WriteEvent` describes and no other byte of memory changes. */
  method DeliverMessage(mem: array<byte>, dest: nat, src: nat, handle: nat, len: byte)
    requires mem.Length <= SPACE && 0 < dest <= mem.Length - AREA_LEN && 0 < src <= mem.Length - AREA_LEN
    requires dest + AREA_LEN <= src || src + AREA_LEN <= dest
    requires len <= MAX_PAYLOAD
    modifies mem
    ensures mem[..] == old(mem[..dest]) +
                       WriteEvent(Area(old(mem[..]), dest), 1, handle, Area(old(mem[..]), src)[..len]) +
                       old(mem[dest + AREA_LEN..])
  {
    ghost var was := mem[..];
    hide Header;
    StoreHeader(mem, dest, 1, len, handle);
    Copy(mem, dest + HEADER_LEN, src, len);
    CopiedBehindHeader(was, dest, src, Header(1, len, handle), len);
    StoredArea(was, dest, 1, handle, Area(was, src)[..len]);
  }
}
