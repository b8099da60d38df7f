/** The log buffer and the number printer of the debug manager. */
module LogPrinter {

  const BUF_MAX := 128
  const U64_LIMIT := 0x1_0000_0000_0000_0000

  predicate Base(base: nat) {
    base == 8 || base == 10 || base == 16
  }

  // ---- Texts of numbers -----------------------------------------------------------------------------

  function DigitChar(d: nat): (c: char)
    requires d < 16
    ensures DigitValue(c) == d
  {
    if d < 10 then '0' + d as char else 'a' + (d - 10) as char
  }

  function DigitValue(c: char): int {
    if '0' <= c <= '9' then c as int - '0' as int
    else if 'a' <= c <= 'f' then c as int - 'a' as int + 10
    else -1
  }

  /** The digits of a number, most significant first. */
  function Text(value: nat, base: nat): (text: string)
    requires Base(base)
    ensures |text| > 0
  {
    if value < base then [DigitChar(value)] else Text(value / base, base) + [DigitChar(value % base)]
  }

  /** The number a text of digits denotes. */
  function Reading(text: string, base: nat): int {
    if text == [] then 0 else Reading(text[..|text| - 1], base) * base + DigitValue(text[|text| - 1])
  }

  /** The digits read back to the number. */
  lemma {:induction false} TextReads(value: nat, base: nat)
    requires Base(base)
    ensures Reading(Text(value, base), base) == value
  {
    var text := Text(value, base);
    if value < base {
      assert text[..0] == [] && Reading(text[..0], base) == 0;
    } else {
      TextReads(value / base, base);
      assert text[..|text| - 1] == Text(value / base, base);
      assert value / base * base + value % base == value;
    }
  }

  /** There is no redundant leading zero. */
  lemma {:induction false} NoLeadingZero(value: nat, base: nat)
    requires Base(base)
    ensures Text(value, base)[0] == '0' <==> value == 0
    ensures value == 0 ==> |Text(value, base)| == 1
  {
    if value >= base {
      NoLeadingZero(value / base, base);
    }
  }

  function Pow8(k: nat): nat {
    if k == 0 then 1 else 8 * Pow8(k - 1)
  }

  /** A number below 8 to the k has at most k digits. */
  lemma {:induction false} TextLength(value: nat, base: nat, k: nat)
    requires Base(base) && 1 <= k && value < Pow8(k)
    ensures |Text(value, base)| <= k
  {
    if value >= base {
      TextLength(value / base, base, k - 1);
    }
  }

  lemma EnoughDigits()
    ensures Pow8(22) >= U64_LIMIT
  {
    assert Pow8(4) == 0x1000;
    assert Pow8(8) == 0x100_0000;
    assert Pow8(12) == 0x10_0000_0000;
    assert Pow8(16) == 0x1_0000_0000_0000;
    assert Pow8(20) == 0x1000_0000_0000_0000;
  }

  lemma TextFits(value: nat, base: nat)
    requires Base(base) && value < U64_LIMIT
    ensures |Text(value, base)| <= 22
  {
    EnoughDigits();
    TextLength(value, base, 22);
  }

  // ---- Zero padding -----------------------------------------------------------------------------------

  function Zeros(n: nat): (z: string)
    ensures |z| == n && forall i :: 0 <= i < n ==> z[i] == '0'
  {
    if n == 0 then [] else Zeros(n - 1) + ['0']
  }

  /** A field of at least `width` characters. */
  function Padded(value: nat, base: nat, width: nat): (field: string)
    requires Base(base)
  {
    var text := Text(value, base);
    if |text| < width then Zeros(width - |text|) + text else text
  }

  lemma {:induction false} ZerosRead(n: nat, text: string, base: nat)
    ensures Reading(Zeros(n) + text, base) == Reading(text, base)
    decreases |text|, n
  {
    var whole := Zeros(n) + text;
    if text == [] {
      assert whole == Zeros(n);
      if n > 0 {
        ZerosRead(n - 1, [], base);
        assert whole[..|whole| - 1] == Zeros(n - 1) == Zeros(n - 1) + [];
      }
    } else {
      ZerosRead(n, text[..|text| - 1], base);
      assert whole[..|whole| - 1] == Zeros(n) + text[..|text| - 1];
    }
  }

  /** A padded field has the larger of the two widths and still reads as the number. */
  lemma PaddedField(value: nat, base: nat, width: nat)
    requires Base(base)
    ensures |Padded(value, base, width)| == if |Text(value, base)| < width then width else |Text(value, base)|
    ensures Reading(Padded(value, base, width), base) == value
  {
    TextReads(value, base);
    hide Text, Reading, Zeros;
    if |Text(value, base)| < width {
      ZerosRead(width - |Text(value, base)|, Text(value, base), base);
    }
  }

  /** The width is read on 8 bits, so a field has the width asked for exactly when that fits. */
  lemma WidthExact(value: nat, base: nat, asked: nat)
    requires Base(base) && value < U64_LIMIT
    ensures |Padded(value, base, asked % 256)| == |Padded(value, base, asked)| <==> asked < 256
  {
    hide Text, Padded, Reading;
    TextFits(value, base);
    var kept := asked % 256;
    if asked < 256 {
      assert kept == asked;
    } else {
      PaddedField(value, base, kept);
      PaddedField(value, base, asked);
    }
  }

  predicate IsDigit(c: char) {
    '0' <= c <= '9'
  }

  /** End of the run of digits that starts at `at`. */
  function DigitsEnd(fmt: string, at: nat): (end: nat)
    requires at <= |fmt|
    ensures at <= end <= |fmt|
    ensures end < |fmt| ==> !IsDigit(fmt[end])
    ensures forall j :: at <= j < end ==> IsDigit(fmt[j])
    decreases |fmt| - at
  {
    if at == |fmt| || !IsDigit(fmt[at]) then at else DigitsEnd(fmt, at + 1)
  }

  lemma ReadsNothing(fmt: string, at: nat)
    requires at <= |fmt|
    ensures Reading(fmt[at..at], 10) == 0
  {
  }

  lemma ReadsOn(fmt: string, at: nat, end: nat)
    requires at <= end < |fmt| && IsDigit(fmt[end])
    ensures Reading(fmt[at..end + 1], 10) == Reading(fmt[at..end], 10) * 10 + (fmt[end] as int - '0' as int)
  {
    assert fmt[at..end + 1][..end - at] == fmt[at..end];
  }

  lemma KeepsOctet(value: nat, d: nat)
    ensures (value % 256 * 10 + d) % 256 == (value * 10 + d) % 256
  {
    var q, r := value / 256, value % 256;
    assert value * 10 + d == 256 * (10 * q) + (r * 10 + d);
    OctetOf(10 * q, r * 10 + d);
  }

  lemma OctetOf(k: nat, x: nat)
    ensures (256 * k + x) % 256 == x % 256
  {
  }

  /** The field width after a zero flag: a decimal number, kept on 8 bits digit by digit. */
  method ParseSize(fmt: string, at: nat) returns (size: nat, end: nat)
    requires at <= |fmt|
    ensures end == DigitsEnd(fmt, at)
    ensures Reading(fmt[at..end], 10) >= 0 && size == Reading(fmt[at..end], 10) % 256
  {
    hide Reading;
    size, end := 0, at;
    ReadsNothing(fmt, at);
    while end < |fmt| && '0' <= fmt[end] <= '9'
      invariant at <= end <= |fmt| && DigitsEnd(fmt, at) == DigitsEnd(fmt, end)
      invariant Reading(fmt[at..end], 10) >= 0 && size == Reading(fmt[at..end], 10) % 256
    {
      ReadsOn(fmt, at, end);
      var d := fmt[end] as int - '0' as int;
      KeepsOctet(Reading(fmt[at..end], 10), d);
      size := (size * 10 + d) % 256;
      end := end + 1;
    }
  }

  // ---- The buffer ------------------------------------------------------------------------------------------

  class DbgBuffer {
    const buf: array<char>
    const number: array<nat>
    var offset: nat
    ghost var offered: string    // every character offered since the last flush

    /** The buffer holds exactly the first 128 characters offered since the last flush. */
    ghost predicate Valid()
      reads this, buf
    {
      && buf.Length == BUF_MAX && number.Length == 64
      && offset == (if |offered| < BUF_MAX then |offered| else BUF_MAX)
      && buf[..offset] == offered[..offset]
    }

    constructor ()
      ensures Valid() && offered == [] && fresh(buf) && fresh(number)
    {
      buf := new char[BUF_MAX](_ => '\0');
      number := new nat[64](_ => 0);
      offset, offered := 0, [];
    }

    method Flush()
      requires Valid()
      modifies buf, `offset, `offered
      ensures Valid() && offered == [] && forall i :: 0 <= i < BUF_MAX ==> buf[i] == '\0'
    {
      forall i | 0 <= i < BUF_MAX {
        buf[i] := '\0';
      }
      offset, offered := 0, [];
    }

    /** A character is stored, or dropped when the buffer is full. */
    method WriteChar(c: char)
      requires Valid()
      modifies buf, `offset, `offered
      ensures Valid() && offered == old(offered) + [c]
    {
      offered := offered + [c];
      if offset == BUF_MAX {
        return;
      }
      buf[offset] := c;
      offset := offset + 1;
    }

    method WriteDigit(digit: nat)
      requires Valid()
      modifies buf, `offset, `offered
      ensures Valid() && offered == if digit < 16 then old(offered) + [DigitChar(digit)] else old(offered)
    {
      if digit < 0xA {
        WriteChar('0' + digit as char);
      } else if digit <= 0xF {
        WriteChar('a' + (digit - 0xA) as char);
      }
    }

    /** The digits are stored least significant first; the result is the index of the last one. */
    method StoreDigits(value: nat, base: nat) returns (index: nat)
      requires Valid() && value < U64_LIMIT && Base(base)
      modifies number
      ensures Valid() && index < 22 && StoredText(number[..index + 1]) == Text(value, base)
    {
      TextFits(value, base);
      index := 0;
      var rest := value;
      assert number[..0] == [] && Text(value, base) == Text(rest, base) + StoredText(number[..0]);
      hide Text, StoredText;
      while rest / base != 0
        invariant 0 <= rest <= value && |Text(rest, base)| + index <= 22
        invariant Text(value, base) == Text(rest, base) + StoredText(number[..index])
        decreases rest
      {
        TextStep(rest, base, number[..index]);
        number[index] := rest % base;
        assert number[..index + 1] == number[..index] + [rest % base];
        index := index + 1;
        if index >= 64 {
          assert false;
        }
        rest := rest / base;
      }
      TextLast(rest, base, number[..index]);
      number[index] := rest % base;
      assert number[..index + 1] == number[..index] + [rest % base];
    }

    /** The stored digits are written, starting with the most significant one. */
    method WriteStored(last: nat)
      requires Valid() && last < 64
      modifies buf, `offset, `offered
      ensures Valid() && offered == old(offered) + StoredText(number[..last + 1])
    {
      hide StoredText;
      var index := last;
      while true
        invariant 0 <= index <= last && Valid()
        invariant offered + StoredText(number[..index + 1]) == old(offered) + StoredText(number[..last + 1])
        decreases index
      {
        assert number[..index + 1] == number[..index] + [number[index]];
        StoredSplit(number[..index], number[index]);
        WriteDigit(number[index]);
        if index == 0 {
          assert number[..0] == [];
          return;
        }
        index := index - 1;
      }
    }

    /** A number in base 8, 10 or 16 is written as its text; any other base writes nothing. */
    method WriteU64(value: nat, base: nat)
      requires Valid() && value < U64_LIMIT
      modifies buf, number, `offset, `offered
      ensures Valid() && offered == if Base(base) then old(offered) + Text(value, base) else old(offered)
    {
      if base != 10 && base != 8 && base != 16 {
        return;
      }
      var index := StoreDigits(value, base);
      WriteStored(index);
    }

    /** The %u, %x and %o conversions, with the field padded when a width was given. */
    method PrintUnsigned(value: nat, base: nat, size: nat)
      requires Valid() && value < U64_LIMIT && Base(base)
      modifies buf, number, `offset, `offered
      ensures Valid() && offered == old(offered) + Padded(value, base, size)
    {
      hide Text;
      var len := NumberLength(value, base);
      for i := len to if size < len then len else size
        invariant Valid() && offered == old(offered) + Zeros(i - len)
      {
        WriteChar('0');
      }
      WriteU64(value, base);
    }
  }

  /** The number of digits, as the printer counts them beforehand. */
  method NumberLength(value: nat, base: nat) returns (len: nat)
    requires Base(base) && value < U64_LIMIT
    ensures len == |Text(value, base)|
  {
    TextFits(value, base);
    len := 1;
    var rest := value;
    while rest / base != 0
      invariant 0 <= rest <= value && |Text(rest, base)| + len - 1 == |Text(value, base)|
      decreases rest
    {
      if len == 254 {
        break;
      }
      len := len + 1;
      rest := rest / base;
    }
  }

  /** The characters of stored digits, last stored first. */
  ghost function StoredText(digits: seq<nat>): string {
    if digits == [] then []
    else
      var d := digits[|digits| - 1];
      (if d < 16 then [DigitChar(d)] else []) + StoredText(digits[..|digits| - 1])
  }

  lemma StoredSplit(digits: seq<nat>, d: nat)
    ensures StoredText(digits + [d]) == (if d < 16 then [DigitChar(d)] else []) + StoredText(digits)
    ensures digits == [] ==> StoredText(digits) == []
  {
    assert (digits + [d])[..|digits|] == digits;
  }

  lemma StoredOne(digits: seq<nat>, d: nat)
    requires d < 16
    ensures StoredText(digits + [d]) == [DigitChar(d)] + StoredText(digits)
  {
    assert (digits + [d])[..|digits|] == digits;
  }

  lemma TextStep(rest: nat, base: nat, digits: seq<nat>)
    requires Base(base) && rest / base != 0
    ensures rest / base < rest && |Text(rest / base, base)| + 1 == |Text(rest, base)|
    ensures Text(rest, base) + StoredText(digits) == Text(rest / base, base) + StoredText(digits + [rest % base])
  {
    StoredOne(digits, rest % base);
    assert rest >= base;
  }

  lemma TextLast(rest: nat, base: nat, digits: seq<nat>)
    requires Base(base) && rest / base == 0
    ensures Text(rest, base) + StoredText(digits) == StoredText(digits + [rest % base])
  {
    StoredOne(digits, rest % base);
  }
}
