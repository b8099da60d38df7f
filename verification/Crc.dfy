/** The table-driven CRC-32 of the kernel's crypto library. */
module Crc {

  const POLY: bv32 := 0xEDB88320

  type Octet = x: bv32 | x <= 0xFF

  function Xor(a: bv32, b: bv32): bv32 { a ^ b }
  function Half(x: bv32): bv32 { x >> 1 }
  predicate Odd(x: bv32) { x & 1 == 1 }
  function Low(x: bv32): Octet { x & 0xFF }
  function High(x: bv32): bv32 { x & 0xFFFFFF00 }

  // ---- Bit by bit ----------------------------------------------------------------------------------------

  /** One message bit, the low bit of `bit`, enters the shift register. */
  function Feed(crc: bv32, bit: bv32): bv32 {
    if Odd(Xor(crc, bit)) then Xor(Half(crc), POLY) else Half(crc)
  }

  /** The low `k` bits of `x` enter, least significant first. */
  function FeedBits(crc: bv32, x: bv32, k: nat): bv32
    decreases k
  {
    if k == 0 then crc else FeedBits(Feed(crc, x), Half(x), k - 1)
  }

  /** The serial CRC of a message: the reference definition. */
  function Serial(data: seq<Octet>, crc: bv32): bv32 {
    if data == [] then crc else FeedBits(Serial(data[..|data| - 1], crc), data[|data| - 1], 8)
  }

  // ---- The table -----------------------------------------------------------------------------------------

  function Lines0(k: bv32): (row: seq<bv32>)
    ensures |row| == 8
  {
    if k == 0 then [0x00000000, 0x77073096, 0xEE0E612C, 0x990951BA, 0x076DC419, 0x706AF48F, 0xE963A535, 0x9E6495A3]
    else if k == 1 then [0x0EDB8832, 0x79DCB8A4, 0xE0D5E91E, 0x97D2D988, 0x09B64C2B, 0x7EB17CBD, 0xE7B82D07, 0x90BF1D91]
    else if k == 2 then [0x1DB71064, 0x6AB020F2, 0xF3B97148, 0x84BE41DE, 0x1ADAD47D, 0x6DDDE4EB, 0xF4D4B551, 0x83D385C7]
    else [0x136C9856, 0x646BA8C0, 0xFD62F97A, 0x8A65C9EC, 0x14015C4F, 0x63066CD9, 0xFA0F3D63, 0x8D080DF5]
  }

  function Lines1(k: bv32): (row: seq<bv32>)
    ensures |row| == 8
  {
    if k == 0 then [0x3B6E20C8, 0x4C69105E, 0xD56041E4, 0xA2677172, 0x3C03E4D1, 0x4B04D447, 0xD20D85FD, 0xA50AB56B]
    else if k == 1 then [0x35B5A8FA, 0x42B2986C, 0xDBBBC9D6, 0xACBCF940, 0x32D86CE3, 0x45DF5C75, 0xDCD60DCF, 0xABD13D59]
    else if k == 2 then [0x26D930AC, 0x51DE003A, 0xC8D75180, 0xBFD06116, 0x21B4F4B5, 0x56B3C423, 0xCFBA9599, 0xB8BDA50F]
    else [0x2802B89E, 0x5F058808, 0xC60CD9B2, 0xB10BE924, 0x2F6F7C87, 0x58684C11, 0xC1611DAB, 0xB6662D3D]
  }

  function Lines2(k: bv32): (row: seq<bv32>)
    ensures |row| == 8
  {
    if k == 0 then [0x76DC4190, 0x01DB7106, 0x98D220BC, 0xEFD5102A, 0x71B18589, 0x06B6B51F, 0x9FBFE4A5, 0xE8B8D433]
    else if k == 1 then [0x7807C9A2, 0x0F00F934, 0x9609A88E, 0xE10E9818, 0x7F6A0DBB, 0x086D3D2D, 0x91646C97, 0xE6635C01]
    else if k == 2 then [0x6B6B51F4, 0x1C6C6162, 0x856530D8, 0xF262004E, 0x6C0695ED, 0x1B01A57B, 0x8208F4C1, 0xF50FC457]
    else [0x65B0D9C6, 0x12B7E950, 0x8BBEB8EA, 0xFCB9887C, 0x62DD1DDF, 0x15DA2D49, 0x8CD37CF3, 0xFBD44C65]
  }

  function Lines3(k: bv32): (row: seq<bv32>)
    ensures |row| == 8
  {
    if k == 0 then [0x4DB26158, 0x3AB551CE, 0xA3BC0074, 0xD4BB30E2, 0x4ADFA541, 0x3DD895D7, 0xA4D1C46D, 0xD3D6F4FB]
    else if k == 1 then [0x4369E96A, 0x346ED9FC, 0xAD678846, 0xDA60B8D0, 0x44042D73, 0x33031DE5, 0xAA0A4C5F, 0xDD0D7CC9]
    else if k == 2 then [0x5005713C, 0x270241AA, 0xBE0B1010, 0xC90C2086, 0x5768B525, 0x206F85B3, 0xB966D409, 0xCE61E49F]
    else [0x5EDEF90E, 0x29D9C998, 0xB0D09822, 0xC7D7A8B4, 0x59B33D17, 0x2EB40D81, 0xB7BD5C3B, 0xC0BA6CAD]
  }

  function Lines4(k: bv32): (row: seq<bv32>)
    ensures |row| == 8
  {
    if k == 0 then [0xEDB88320, 0x9ABFB3B6, 0x03B6E20C, 0x74B1D29A, 0xEAD54739, 0x9DD277AF, 0x04DB2615, 0x73DC1683]
    else if k == 1 then [0xE3630B12, 0x94643B84, 0x0D6D6A3E, 0x7A6A5AA8, 0xE40ECF0B, 0x9309FF9D, 0x0A00AE27, 0x7D079EB1]
    else if k == 2 then [0xF00F9344, 0x8708A3D2, 0x1E01F268, 0x6906C2FE, 0xF762575D, 0x806567CB, 0x196C3671, 0x6E6B06E7]
    else [0xFED41B76, 0x89D32BE0, 0x10DA7A5A, 0x67DD4ACC, 0xF9B9DF6F, 0x8EBEEFF9, 0x17B7BE43, 0x60B08ED5]
  }

  function Lines5(k: bv32): (row: seq<bv32>)
    ensures |row| == 8
  {
    if k == 0 then [0xD6D6A3E8, 0xA1D1937E, 0x38D8C2C4, 0x4FDFF252, 0xD1BB67F1, 0xA6BC5767, 0x3FB506DD, 0x48B2364B]
    else if k == 1 then [0xD80D2BDA, 0xAF0A1B4C, 0x36034AF6, 0x41047A60, 0xDF60EFC3, 0xA867DF55, 0x316E8EEF, 0x4669BE79]
    else if k == 2 then [0xCB61B38C, 0xBC66831A, 0x256FD2A0, 0x5268E236, 0xCC0C7795, 0xBB0B4703, 0x220216B9, 0x5505262F]
    else [0xC5BA3BBE, 0xB2BD0B28, 0x2BB45A92, 0x5CB36A04, 0xC2D7FFA7, 0xB5D0CF31, 0x2CD99E8B, 0x5BDEAE1D]
  }

  function Lines6(k: bv32): (row: seq<bv32>)
    ensures |row| == 8
  {
    if k == 0 then [0x9B64C2B0, 0xEC63F226, 0x756AA39C, 0x026D930A, 0x9C0906A9, 0xEB0E363F, 0x72076785, 0x05005713]
    else if k == 1 then [0x95BF4A82, 0xE2B87A14, 0x7BB12BAE, 0x0CB61B38, 0x92D28E9B, 0xE5D5BE0D, 0x7CDCEFB7, 0x0BDBDF21]
    else if k == 2 then [0x86D3D2D4, 0xF1D4E242, 0x68DDB3F8, 0x1FDA836E, 0x81BE16CD, 0xF6B9265B, 0x6FB077E1, 0x18B74777]
    else [0x88085AE6, 0xFF0F6A70, 0x66063BCA, 0x11010B5C, 0x8F659EFF, 0xF862AE69, 0x616BFFD3, 0x166CCF45]
  }

  function Lines7(k: bv32): (row: seq<bv32>)
    ensures |row| == 8
  {
    if k == 0 then [0xA00AE278, 0xD70DD2EE, 0x4E048354, 0x3903B3C2, 0xA7672661, 0xD06016F7, 0x4969474D, 0x3E6E77DB]
    else if k == 1 then [0xAED16A4A, 0xD9D65ADC, 0x40DF0B66, 0x37D83BF0, 0xA9BCAE53, 0xDEBB9EC5, 0x47B2CF7F, 0x30B5FFE9]
    else if k == 2 then [0xBDBDF21C, 0xCABAC28A, 0x53B39330, 0x24B4A3A6, 0xBAD03605, 0xCDD70693, 0x54DE5729, 0x23D967BF]
    else [0xB3667A2E, 0xC4614AB8, 0x5D681B02, 0x2A6F2B94, 0xB40BBE37, 0xC30C8EA1, 0x5A05DF1B, 0x2D02EF8D]
  }

  /** Line `k` of the table of the source, which has eight entries a line. */
  function Line(k: bv32): (row: seq<bv32>)
    ensures |row| == 8
  {
    var j := k & 3;
    match k >> 2
    case 0 => Lines0(j)
    case 1 => Lines1(j)
    case 2 => Lines2(j)
    case 3 => Lines3(j)
    case 4 => Lines4(j)
    case 5 => Lines5(j)
    case 6 => Lines6(j)
    case _ => Lines7(j)
  }

  function Entry(i: Octet): bv32 {
    var row := Line(i >> 3);
    match i & 7
    case 0 => row[0]
    case 1 => row[1]
    case 2 => row[2]
    case 3 => row[3]
    case 4 => row[4]
    case 5 => row[5]
    case 6 => row[6]
    case _ => row[7]
  }

  /** The octet step of the source: one table entry instead of eight bits. */
  function Update(octet: Octet, crc: bv32): bv32 {
    Xor(Entry(Low(Xor(crc, octet))), crc >> 8)
  }

  /** One step of the register with no message bit. */
  function Shift(x: bv32): bv32 {
    if x & 1 == 1 then (x >> 1) ^ POLY else x >> 1
  }

  lemma ShiftIs(x: bv32)
    ensures Shift(x) == if Odd(x) then Xor(Half(x), POLY) else Half(x)
  {
  }

  function Shifts(x: bv32, k: nat): bv32
    decreases k
  {
    if k == 0 then x else Shifts(Shift(x), k - 1)
  }

  function Shift8(x: bv32): bv32 {
    Shift(Shift(Shift(Shift(Shift(Shift(Shift(Shift(x))))))))
  }

  lemma ShiftsEight(x: bv32)
    ensures Shifts(x, 8) == Shift8(x)
  {
    hide Shift;
    assert Shifts(x, 8) == Shifts(Shift(Shift(x)), 6);
    var y := Shift(Shift(x));
    assert Shifts(y, 6) == Shifts(Shift(Shift(y)), 4);
    var z := Shift(Shift(y));
    assert Shifts(z, 4) == Shifts(Shift(Shift(z)), 2);
    var w := Shift(Shift(z));
    assert Shifts(w, 2) == Shift(Shift(w));
  }

  /** A line holds eight steps of each of its eight indices. */
  predicate LineOk(row: seq<bv32>, base: bv32)
    requires |row| == 8
  {
    && row[0] == Shift8(base) && row[1] == Shift8(base | 1) && row[2] == Shift8(base | 2) && row[3] == Shift8(base | 3)
    && row[4] == Shift8(base | 4) && row[5] == Shift8(base | 5)
    && row[6] == Shift8(base | 6) && row[7] == Shift8(base | 7)
  }

  lemma LinesOk0()
    ensures LineOk(Line(0), 0x00)
    ensures LineOk(Line(1), 0x08)
    ensures LineOk(Line(2), 0x10)
    ensures LineOk(Line(3), 0x18)
  {
  }

  lemma LinesOk1()
    ensures LineOk(Line(4), 0x20)
    ensures LineOk(Line(5), 0x28)
    ensures LineOk(Line(6), 0x30)
    ensures LineOk(Line(7), 0x38)
  {
  }

  lemma LinesOk2()
    ensures LineOk(Line(8), 0x40)
    ensures LineOk(Line(9), 0x48)
    ensures LineOk(Line(10), 0x50)
    ensures LineOk(Line(11), 0x58)
  {
  }

  lemma LinesOk3()
    ensures LineOk(Line(12), 0x60)
    ensures LineOk(Line(13), 0x68)
    ensures LineOk(Line(14), 0x70)
    ensures LineOk(Line(15), 0x78)
  {
  }

  lemma LinesOk4()
    ensures LineOk(Line(16), 0x80)
    ensures LineOk(Line(17), 0x88)
    ensures LineOk(Line(18), 0x90)
    ensures LineOk(Line(19), 0x98)
  {
  }

  lemma LinesOk5()
    ensures LineOk(Line(20), 0xA0)
    ensures LineOk(Line(21), 0xA8)
    ensures LineOk(Line(22), 0xB0)
    ensures LineOk(Line(23), 0xB8)
  {
  }

  lemma LinesOk6()
    ensures LineOk(Line(24), 0xC0)
    ensures LineOk(Line(25), 0xC8)
    ensures LineOk(Line(26), 0xD0)
    ensures LineOk(Line(27), 0xD8)
  {
  }

  lemma LinesOk7()
    ensures LineOk(Line(28), 0xE0)
    ensures LineOk(Line(29), 0xE8)
    ensures LineOk(Line(30), 0xF0)
    ensures LineOk(Line(31), 0xF8)
  {
  }

  lemma LineCases(k: bv32)
    requires k <= 31
    ensures k == 0 || k == 1 || k == 2 || k == 3 || k == 4 || k == 5 || k == 6 || k == 7
         || k == 8 || k == 9 || k == 10 || k == 11 || k == 12 || k == 13 || k == 14 || k == 15
         || k == 16 || k == 17 || k == 18 || k == 19 || k == 20 || k == 21 || k == 22 || k == 23
         || k == 24 || k == 25 || k == 26 || k == 27 || k == 28 || k == 29 || k == 30 || k == 31
  {
  }

  lemma AllLinesOk(k: bv32)
    requires k <= 31
    ensures LineOk(Line(k), k << 3)
  {
    hide LineOk, Line;
    LineCases(k);
    LinesOk0();
    LinesOk1();
    LinesOk2();
    LinesOk3();
    LinesOk4();
    LinesOk5();
    LinesOk6();
    LinesOk7();
  }

  lemma IndexParts(i: Octet)
    ensures i >> 3 <= 31 && i & 7 <= 7 && i == ((i >> 3) << 3) | (i & 7)
    ensures i & 7 == 0 ==> i == (i >> 3) << 3
  {
  }

  /** Every entry of the table is eight steps of its index. */
  lemma EntryOk(i: Octet)
    ensures Entry(i) == Shift8(i)
  {
    IndexParts(i);
    hide Shift8, Line;
    AllLinesOk(i >> 3);
  }

  // ---- Eight bits at once ----------------------------------------------------------------------------------

  lemma HalfXor(a: bv32, b: bv32)
    ensures Half(Xor(a, b)) == Xor(Half(a), Half(b))
  {
  }

  lemma OddXor(a: bv32, b: bv32)
    ensures Odd(Xor(a, b)) <==> Odd(a) != Odd(b)
  {
  }

  lemma XorAssociates(p: bv32, q: bv32, r: bv32)
    ensures Xor(Xor(p, q), r) == Xor(p, Xor(q, r))
  {
  }

  lemma XorLaws(p: bv32, q: bv32)
    ensures Xor(p, q) == Xor(q, p) && Xor(p, p) == 0 && Xor(p, 0) == p
  {
  }

  lemma XorMoves(p: bv32, q: bv32, r: bv32)
    ensures Xor(Xor(p, q), r) == Xor(Xor(p, r), q)
  {
    hide Xor;
    XorAssociates(p, q, r);
    XorLaws(q, r);
    XorAssociates(p, r, q);
  }

  lemma XorCancels(p: bv32, q: bv32, r: bv32)
    ensures Xor(p, q) == Xor(Xor(p, r), Xor(q, r))
  {
    hide Xor;
    XorAssociates(p, r, Xor(q, r));
    XorLaws(r, q);
    XorAssociates(r, r, q);
    XorLaws(q, 0);
  }

  /** The register is linear. */
  lemma ShiftXor(a: bv32, b: bv32)
    ensures Shift(Xor(a, b)) == Xor(Shift(a), Shift(b))
  {
    ShiftIs(a);
    ShiftIs(b);
    ShiftIs(Xor(a, b));
    hide Xor, Half, Odd, Shift;
    HalfXor(a, b);
    OddXor(a, b);
    XorCancels(Half(a), Half(b), POLY);
    XorMoves(Half(a), Half(b), POLY);
    XorAssociates(Half(a), Half(b), POLY);
  }

  lemma {:induction false} ShiftsXor(a: bv32, b: bv32, k: nat)
    ensures Shifts(Xor(a, b), k) == Xor(Shifts(a, k), Shifts(b, k))
    decreases k
  {
    hide Xor, Shift;
    if k > 0 {
      ShiftXor(a, b);
      ShiftsXor(Shift(a), Shift(b), k - 1);
    }
  }

  /** A register whose low bits are clear only moves. */
  lemma ShiftsHigh(z: bv32)
    requires Low(z) == 0
    ensures Shifts(z, 8) == z >> 8
  {
    ShiftsEight(z);
    hide Shifts;
  }

  lemma JoinHalves(y: bv32)
    ensures Xor(Low(y), High(y)) == y
  {
    assert (y & 0xFF) ^ (y & 0xFFFFFF00) == y;
  }

  lemma HighOnly(y: bv32)
    ensures Low(High(y)) == 0 && High(y) >> 8 == y >> 8
  {
  }

  lemma SameHigh(crc: bv32, octet: Octet)
    ensures Xor(crc, octet) >> 8 == crc >> 8
  {
  }

  /** The table step is eight steps of the register that holds the octet. */
  lemma UpdateShifts(octet: Octet, crc: bv32)
    ensures Update(octet, crc) == Shifts(Xor(crc, octet), 8)
  {
    var y := Xor(crc, octet);
    JoinHalves(y);
    HighOnly(y);
    SameHigh(crc, octet);
    hide Xor, Low, High, Shifts, Entry, Shift8;
    EntryOk(Low(y));
    ShiftsEight(Low(y));
    ShiftsXor(Low(y), High(y), 8);
    ShiftsHigh(High(y));
  }

  /** Feeding a bit, seen from the register that already holds the rest of the octet. */
  lemma FeedShift(c: bv32, x: bv32)
    ensures Shift(Xor(c, x)) == Xor(Feed(c, x), Half(x))
  {
    ShiftIs(Xor(c, x));
    hide Xor, Half, Odd, Shift;
    HalfXor(c, x);
    XorMoves(Half(c), Half(x), POLY);
  }

  function Halved(x: bv32, k: nat): bv32
    decreases k
  {
    if k == 0 then x else Halved(Half(x), k - 1)
  }

  lemma {:induction false} FeedBitsShift(c: bv32, x: bv32, k: nat)
    ensures Shifts(Xor(c, x), k) == Xor(FeedBits(c, x, k), Halved(x, k))
    decreases k
  {
    hide Xor, Half, Shift, Feed;
    if k > 0 {
      FeedShift(c, x);
      FeedBitsShift(Feed(c, x), Half(x), k - 1);
    }
  }

  lemma HalvedOctet(x: Octet)
    ensures Halved(x, 8) == 0
  {
    hide Half;
    assert Halved(x, 8) == Halved(Half(Half(x)), 6);
    var y := Half(Half(x));
    assert Halved(y, 6) == Halved(Half(Half(y)), 4);
    var z := Half(Half(y));
    assert Halved(z, 4) == Halved(Half(Half(z)), 2);
    var w := Half(Half(z));
    assert Halved(w, 2) == Half(Half(w));
    EightHalves(x);
  }

  lemma EightHalves(x: Octet)
    ensures Half(Half(Half(Half(Half(Half(Half(Half(x)))))))) == 0
  {
  }

  lemma FeedOctet(crc: bv32, octet: Octet)
    ensures FeedBits(crc, octet, 8) == Shifts(Xor(crc, octet), 8)
  {
    hide Xor, FeedBits, Shifts, Halved;
    FeedBitsShift(crc, octet, 8);
    HalvedOctet(octet);
    XorLaws(FeedBits(crc, octet, 8), 0);
  }

  /** The table step is the serial step, for every octet and every register. */
  lemma UpdateIsSerial(octet: Octet, crc: bv32)
    ensures Update(octet, crc) == FeedBits(crc, octet, 8)
  {
    hide Update, FeedBits, Shifts;
    UpdateShifts(octet, crc);
    FeedOctet(crc, octet);
  }

  /** The CRC of a buffer; without a buffer, the initial value. */
  method Crc32(buf: array?<Octet>, len: nat, init: bv32) returns (crc: bv32)
    requires buf != null ==> len <= buf.Length
    ensures crc == if buf == null then init else Serial(buf[..len], init)
  {
    if buf == null {
      return init;
    }
    hide Update, FeedBits;
    crc := init;
    for i := 0 to len
      invariant crc == Serial(buf[..i], init)
    {
      UpdateIsSerial(buf[i], crc);
      crc := Update(buf[i], crc);
      assert buf[..i + 1][..i] == buf[..i];
    }
  }

  // ---- Laws --------------------------------------------------------------------------------------------------

  /** The CRC of data split over several buffers is computed by passing each result on. */
  lemma {:induction false} SerialComposes(a: seq<Octet>, b: seq<Octet>, init: bv32)
    ensures Serial(a + b, init) == Serial(b, Serial(a, init))
  {
    hide FeedBits;
    if b == [] {
      assert a + b == a;
    } else {
      var d := b[..|b| - 1];
      SerialComposes(a, d, init);
      assert (a + b)[..|a + b| - 1] == a + d;
    }
  }

  lemma ShiftInjective(a: bv32, b: bv32)
    requires Shift(a) == Shift(b)
    ensures a == b
  {
  }

  lemma {:induction false} ShiftsInjective(a: bv32, b: bv32, k: nat)
    requires Shifts(a, k) == Shifts(b, k)
    ensures a == b
    decreases k
  {
    hide Shift;
    if k > 0 {
      ShiftsInjective(Shift(a), Shift(b), k - 1);
      ShiftInjective(a, b);
    }
  }

  lemma XorInjective(a: bv32, b: bv32, x: bv32)
    ensures Xor(a, x) == Xor(b, x) ==> a == b
    ensures Xor(x, a) == Xor(x, b) ==> a == b
  {
  }

  /** Two registers that differ still differ after the same data. */
  lemma {:induction false} SerialInjective(data: seq<Octet>, a: bv32, b: bv32)
    requires Serial(data, a) == Serial(data, b)
    ensures a == b
  {
    hide FeedBits, Shifts, Xor;
    if data != [] {
      var d, x := data[..|data| - 1], data[|data| - 1];
      FeedOctet(Serial(d, a), x);
      FeedOctet(Serial(d, b), x);
      ShiftsInjective(Xor(Serial(d, a), x), Xor(Serial(d, b), x), 8);
      XorInjective(Serial(d, a), Serial(d, b), x);
      SerialInjective(d, a, b);
    }
  }

  /** A change of any one octet of a message changes its CRC. */
  lemma OctetChangeDetected(before: seq<Octet>, x: Octet, y: Octet, after: seq<Octet>, init: bv32)
    requires Serial(before + [x] + after, init) == Serial(before + [y] + after, init)
    ensures x == y
  {
    hide FeedBits, Shifts, Xor;
    SerialComposes(before + [x], after, init);
    SerialComposes(before + [y], after, init);
    SerialInjective(after, Serial(before + [x], init), Serial(before + [y], init));
    var c := Serial(before, init);
    assert (before + [x])[..|before|] == before && (before + [y])[..|before|] == before;
    FeedOctet(c, x);
    FeedOctet(c, y);
    ShiftsInjective(Xor(c, x), Xor(c, y), 8);
    XorInjective(x, y, c);
  }
}
