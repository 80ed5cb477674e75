/**
 Thread ids (src/fastapi_agent_protocol/uuid7.py): a 48-bit timestamp and 74
 random bits packed as RFC 9562 sections 4.1, 4.2 and 5.7 lay them out. The
 clock and the random bytes are inputs. Masking with `(1 << k) - 1` is the
 remainder modulo `1 << k`; or-ing a field above the masked bits adds it.
 */
module Uuid7 {

  type Byte = b: int | 0 <= b < 0x100
  type Word = w: int | 0 <= w < 0x1_0000

  /** `int(now * 1000) & ((1 << 48) - 1)`. */
  function Timestamp(milliseconds: nat): (t: nat) { milliseconds % 0x1_0000_0000_0000 }

  /** `value.to_bytes(n, "big")`, of a value that fits. */
  function BigEndian(value: nat, n: nat): (bytes: seq<Byte>)
    ensures |bytes| == n
  {
    if n == 0 then [] else BigEndian(value / 0x100, n - 1) + [value % 0x100]
  }

  /** `int.from_bytes(bytes, "big")`. */
  function FromBigEndian(bytes: seq<Byte>): nat {
    if bytes == [] then 0 else FromBigEndian(bytes[..|bytes| - 1]) * 0x100 + bytes[|bytes| - 1]
  }

  /** Version 7 above 12 random bits: `0b0111 << 12 | (w & 0x0FFF)`. */
  function VersionWord(w: nat): Word { 0x7000 + w % 0x1000 }

  /** Variant 0b10 above 14 random bits: `0b10 << 14 | (w & 0x3FFF)`. */
  function VariantWord(w: nat): Word { 0x8000 + w % 0x4000 }

  function Pack(t: nat, random: seq<Byte>): (raw: seq<Byte>)
    requires |random| == 16
    ensures |raw| == 16
  {
    BigEndian(t, 6)
    + BigEndian(VersionWord(FromBigEndian(random[6..8])), 2)
    + BigEndian(VariantWord(FromBigEndian(random[8..10])), 2)
    + random[10..]
  }

  const DIGITS := "0123456789abcdef"

  function HexByte(b: Byte): (h: string)
    ensures |h| == 2
  {
    [DIGITS[b / 16], DIGITS[b % 16]]
  }

  function Hex(raw: seq<Byte>): (h: string)
    ensures |h| == 2 * |raw|
  {
    if raw == [] then "" else HexByte(raw[0]) + Hex(raw[1..])
  }

  function NewId(milliseconds: nat, random: seq<Byte>): string
    requires |random| == 16
  {
    Hex(Pack(Timestamp(milliseconds), random))
  }

  // ------------------------------------------------------------------- reading

  function TimestampOf(raw: seq<Byte>): nat
    requires |raw| == 16
  {
    FromBigEndian(raw[..6])
  }

  function VersionOf(raw: seq<Byte>): nat
    requires |raw| == 16
  {
    raw[6] / 0x10
  }

  function VariantOf(raw: seq<Byte>): nat
    requires |raw| == 16
  {
    raw[8] / 0x40
  }

  /** The value has at most `n` bytes. */
  predicate Fits(value: nat, n: nat) {
    if n == 0 then value == 0 else Fits(value / 0x100, n - 1)
  }

  lemma {:induction false} SixBytesFit(t: nat)
    requires t < 0x1_0000_0000_0000
    ensures Fits(t, 6)
  {
    var t1, t2, t3 := t / 0x100, t / 0x100 / 0x100, t / 0x100 / 0x100 / 0x100;
    assert Fits(t3 / 0x100 / 0x100 / 0x100, 0);
    assert Fits(t3 / 0x100 / 0x100, 1);
    assert Fits(t3 / 0x100, 2);
    assert Fits(t3, 3);
    assert Fits(t2, 4);
    assert Fits(t1, 5);
  }

  lemma {:induction false} BigEndianBack(value: nat, n: nat)
    requires Fits(value, n)
    ensures FromBigEndian(BigEndian(value, n)) == value
  {
    if n > 0 {
      BigEndianBack(value / 0x100, n - 1);
      assert BigEndian(value, n)[..n - 1] == BigEndian(value / 0x100, n - 1);
    }
  }

  lemma {:induction false} WordBack(w: Word)
    ensures FromBigEndian(BigEndian(w, 2)) == w && BigEndian(w, 2)[0] == w / 0x100
  {
    assert Fits(w / 0x100 / 0x100, 0) && Fits(w / 0x100, 1) && Fits(w, 2);
    BigEndianBack(w, 2);
    assert BigEndian(w / 0x100, 1) == BigEndian(w / 0x100 / 0x100, 0) + [w / 0x100 % 0x100];
  }

  lemma {:induction false} TwoBytes(bytes: seq<Byte>)
    requires |bytes| == 2
    ensures FromBigEndian(bytes) == bytes[0] as int * 0x100 + bytes[1]
  {
    assert bytes[..1] == [bytes[0]] && [bytes[0]][..0] == [];
    assert FromBigEndian(bytes[..1]) == FromBigEndian(bytes[..1][..0]) * 0x100 + bytes[0];
  }

  lemma {:induction false} Layout(t: nat, random: seq<Byte>)
    requires |random| == 16
    ensures var raw := Pack(t, random);
      && raw[..6] == BigEndian(t, 6) && raw[10..] == random[10..]
      && raw[6..8] == BigEndian(VersionWord(FromBigEndian(random[6..8])), 2)
      && raw[8..10] == BigEndian(VariantWord(FromBigEndian(random[8..10])), 2)
      && raw[6] == raw[6..8][0] && raw[8] == raw[8..10][0]
  {
  }

  lemma {:induction false} VersionBits(x: Byte, y: Byte, u: Byte, v: Byte)
    requires u as int * 0x100 + v == VersionWord(x as int * 0x100 + y)
    ensures u / 0x10 == 7 && u % 0x10 == x % 0x10 && v == y
  {
    assert (x as int * 0x100 + y) % 0x1000 == x % 0x10 * 0x100 + y;
  }

  lemma {:induction false} VariantBits(x: Byte, y: Byte, u: Byte, v: Byte)
    requires u as int * 0x100 + v == VariantWord(x as int * 0x100 + y)
    ensures u / 0x40 == 2 && u % 0x40 == x % 0x40 && v == y
  {
    assert (x as int * 0x100 + y) % 0x4000 == x % 0x40 * 0x100 + y;
  }

  lemma {:induction false} WordBytes(raw: seq<Byte>, i: nat)
    requires i + 2 <= |raw|
    ensures FromBigEndian(raw[i..i + 2]) == raw[i] as int * 0x100 + raw[i + 1]
  {
    TwoBytes(raw[i..i + 2]);
  }

  lemma {:induction false} KeepsVersion(t: nat, random: seq<Byte>)
    requires |random| == 16
    ensures var raw := Pack(t, random);
      VersionOf(raw) == 7 && raw[6] % 0x10 == random[6] % 0x10 && raw[7] == random[7]
  {
    var raw := Pack(t, random);
    Layout(t, random);
    WordBack(VersionWord(FromBigEndian(random[6..8])));
    WordBytes(random, 6);
    WordBytes(raw, 6);
    VersionBits(random[6], random[7], raw[6], raw[7]);
  }

  lemma {:induction false} KeepsVariant(t: nat, random: seq<Byte>)
    requires |random| == 16
    ensures var raw := Pack(t, random);
      VariantOf(raw) == 2 && raw[8] % 0x40 == random[8] % 0x40 && raw[9] == random[9]
  {
    var raw := Pack(t, random);
    Layout(t, random);
    WordBack(VariantWord(FromBigEndian(random[8..10])));
    WordBytes(random, 8);
    WordBytes(raw, 8);
    VariantBits(random[8], random[9], raw[8], raw[9]);
  }

  /** Version 7, variant 10, and nothing lost: the timestamp and the 74 random bits can be read back. */
  lemma {:induction false} PackKeeps(milliseconds: nat, random: seq<Byte>)
    requires |random| == 16
    ensures var raw := Pack(Timestamp(milliseconds), random);
      && VersionOf(raw) == 7 && VariantOf(raw) == 2
      && TimestampOf(raw) == milliseconds % 0x1_0000_0000_0000
      && raw[6] % 0x10 == random[6] % 0x10 && raw[7] == random[7]
      && raw[8] % 0x40 == random[8] % 0x40 && raw[9..] == random[9..]
  {
    var t := Timestamp(milliseconds);
    SixBytesFit(t);
    BigEndianBack(t, 6);
    Layout(t, random);
    KeepsVersion(t, random);
    KeepsVariant(t, random);
    var raw := Pack(t, random);
    assert forall i :: 9 <= i < 16 ==> raw[i] == random[i];
  }

  /** What a hex digit stands for. */
  function Nibble(c: char): int {
    if '0' <= c <= '9' then c as int - '0' as int
    else if 'a' <= c <= 'f' then c as int - 'a' as int + 10 else -1
  }

  /** The `i`-th byte can be read from the `i`-th pair of digits of the text. */
  lemma {:induction false} HexReads(raw: seq<Byte>, i: nat)
    requires i < |raw|
    ensures raw[i] == 0x10 * Nibble(Hex(raw)[2 * i]) + Nibble(Hex(raw)[2 * i + 1])
    ensures 0 <= Nibble(Hex(raw)[2 * i]) < 0x10 && 0 <= Nibble(Hex(raw)[2 * i + 1]) < 0x10
  {
    HexAt(raw, i);
    DigitReads(raw[i] / 16);
    DigitReads(raw[i] % 16);
  }

  /** The bytes of a text of hex digits. */
  function ReadHex(text: string): seq<int> {
    seq(|text| / 2, i requires 0 <= i < |text| / 2 => 0x10 * Nibble(text[2 * i]) + Nibble(text[2 * i + 1]))
  }

  /** An id is the hex text of the packed bytes, and nothing else. */
  lemma {:induction false} IdReads(milliseconds: nat, random: seq<Byte>)
    requires |random| == 16
    ensures var id, raw := NewId(milliseconds, random), Pack(Timestamp(milliseconds), random);
      |id| == 32 && |ReadHex(id)| == 16 && forall i :: 0 <= i < 16 ==> ReadHex(id)[i] == raw[i]
  {
    var raw := Pack(Timestamp(milliseconds), random);
    forall i | 0 <= i < 16 ensures ReadHex(Hex(raw))[i] == raw[i] { HexReads(raw, i); }
  }

  lemma {:induction false} DigitReads(d: nat)
    requires d < 16
    ensures Nibble(DIGITS[d]) == d
  {
  }

  // ------------------------------------------------------------------ ordering

  /** The first place where two texts differ, and the first of them is smaller there. */
  ghost predicate SmallerAt(a: string, b: string, k: nat) {
    k < |a| && k < |b| && a[k] < b[k] && forall i :: 0 <= i < k ==> a[i] == b[i]
  }

  /** Lexicographic order. */
  ghost predicate Before(a: string, b: string) {
    exists k :: SmallerAt(a, b, k)
  }

  /** Big-endian bytes are ordered as the values are. */
  lemma {:induction false} FirstDifference(x: nat, y: nat, n: nat) returns (k: nat)
    requires x < y && Fits(x, n) && Fits(y, n)
    ensures k < n && BigEndian(x, n)[k] < BigEndian(y, n)[k]
    ensures forall i :: 0 <= i < k ==> BigEndian(x, n)[i] == BigEndian(y, n)[i]
  {
    if n == 0 {
      assert false;
    } else if x / 0x100 < y / 0x100 {
      k := FirstDifference(x / 0x100, y / 0x100, n - 1);
    } else {
      k := n - 1;
    }
  }

  lemma {:induction false} DigitsAscend(i: nat, j: nat)
    requires i < j < 16
    ensures DIGITS[i] < DIGITS[j]
  {
  }

  lemma {:induction false} DigitOrder(b: Byte, c: Byte)
    requires b < c
    ensures HexByte(b)[0] < HexByte(c)[0] || (HexByte(b)[0] == HexByte(c)[0] && HexByte(b)[1] < HexByte(c)[1])
  {
    if b / 16 < c / 16 {
      DigitsAscend(b / 16, c / 16);
    } else {
      DigitsAscend(b % 16, c % 16);
    }
  }

  lemma {:induction false} HexAt(raw: seq<Byte>, i: nat)
    requires i < |raw|
    ensures Hex(raw)[2 * i] == HexByte(raw[i])[0] && Hex(raw)[2 * i + 1] == HexByte(raw[i])[1]
  {
    if i > 0 { HexAt(raw[1..], i - 1); }
  }

  lemma {:induction false} HexOrder(raw: seq<Byte>, raw': seq<Byte>, k: nat)
    requires k < |raw| && k < |raw'| && raw[k] < raw'[k] && forall i :: 0 <= i < k ==> raw[i] == raw'[i]
    ensures Before(Hex(raw), Hex(raw'))
  {
    HexAt(raw, k);
    HexAt(raw', k);
    DigitOrder(raw[k], raw'[k]);
    var at := if HexByte(raw[k])[0] < HexByte(raw'[k])[0] then 2 * k else 2 * k + 1;
    forall i | 0 <= i < at ensures Hex(raw)[i] == Hex(raw')[i] {
      HexAt(raw, i / 2);
      HexAt(raw', i / 2);
    }
    assert SmallerAt(Hex(raw), Hex(raw'), at);
  }

  /** Ids are 32 hex digits, and an earlier millisecond gives a lexicographically smaller id, whatever is random. */
  lemma {:induction false} EarlierIsSmaller(ms: nat, ms': nat, random: seq<Byte>, random': seq<Byte>)
    requires |random| == |random'| == 16 && Timestamp(ms) < Timestamp(ms')
    ensures Before(NewId(ms, random), NewId(ms', random'))
    ensures |NewId(ms, random)| == 32
  {
    var t, t' := Timestamp(ms), Timestamp(ms');
    SixBytesFit(t);
    SixBytesFit(t');
    var k := FirstDifference(t, t', 6);
    HexOrder(Pack(t, random), Pack(t', random'), k);
  }
}
