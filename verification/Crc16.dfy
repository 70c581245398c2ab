/**
 * CRC-CCITT: the table-driven and the bit-by-bit calculation of `Crc16CalcBlock`, proved against
 * one definition over the bits of the message, most significant bit first.
 */
module Crc16 {
  import opened Folds

  const POLY: bv16 := 0x1021

  /** The lookup table, in rows of sixteen. */
  const TABLE: seq<seq<bv16>> := [
    [0x0000, 0x1021, 0x2042, 0x3063, 0x4084, 0x50A5, 0x60C6, 0x70E7,
     0x8108, 0x9129, 0xA14A, 0xB16B, 0xC18C, 0xD1AD, 0xE1CE, 0xF1EF],
    [0x1231, 0x0210, 0x3273, 0x2252, 0x52B5, 0x4294, 0x72F7, 0x62D6,
     0x9339, 0x8318, 0xB37B, 0xA35A, 0xD3BD, 0xC39C, 0xF3FF, 0xE3DE],
    [0x2462, 0x3443, 0x0420, 0x1401, 0x64E6, 0x74C7, 0x44A4, 0x5485,
     0xA56A, 0xB54B, 0x8528, 0x9509, 0xE5EE, 0xF5CF, 0xC5AC, 0xD58D],
    [0x3653, 0x2672, 0x1611, 0x0630, 0x76D7, 0x66F6, 0x5695, 0x46B4,
     0xB75B, 0xA77A, 0x9719, 0x8738, 0xF7DF, 0xE7FE, 0xD79D, 0xC7BC],
    [0x48C4, 0x58E5, 0x6886, 0x78A7, 0x0840, 0x1861, 0x2802, 0x3823,
     0xC9CC, 0xD9ED, 0xE98E, 0xF9AF, 0x8948, 0x9969, 0xA90A, 0xB92B],
    [0x5AF5, 0x4AD4, 0x7AB7, 0x6A96, 0x1A71, 0x0A50, 0x3A33, 0x2A12,
     0xDBFD, 0xCBDC, 0xFBBF, 0xEB9E, 0x9B79, 0x8B58, 0xBB3B, 0xAB1A],
    [0x6CA6, 0x7C87, 0x4CE4, 0x5CC5, 0x2C22, 0x3C03, 0x0C60, 0x1C41,
     0xEDAE, 0xFD8F, 0xCDEC, 0xDDCD, 0xAD2A, 0xBD0B, 0x8D68, 0x9D49],
    [0x7E97, 0x6EB6, 0x5ED5, 0x4EF4, 0x3E13, 0x2E32, 0x1E51, 0x0E70,
     0xFF9F, 0xEFBE, 0xDFDD, 0xCFFC, 0xBF1B, 0xAF3A, 0x9F59, 0x8F78],
    [0x9188, 0x81A9, 0xB1CA, 0xA1EB, 0xD10C, 0xC12D, 0xF14E, 0xE16F,
     0x1080, 0x00A1, 0x30C2, 0x20E3, 0x5004, 0x4025, 0x7046, 0x6067],
    [0x83B9, 0x9398, 0xA3FB, 0xB3DA, 0xC33D, 0xD31C, 0xE37F, 0xF35E,
     0x02B1, 0x1290, 0x22F3, 0x32D2, 0x4235, 0x5214, 0x6277, 0x7256],
    [0xB5EA, 0xA5CB, 0x95A8, 0x8589, 0xF56E, 0xE54F, 0xD52C, 0xC50D,
     0x34E2, 0x24C3, 0x14A0, 0x0481, 0x7466, 0x6447, 0x5424, 0x4405],
    [0xA7DB, 0xB7FA, 0x8799, 0x97B8, 0xE75F, 0xF77E, 0xC71D, 0xD73C,
     0x26D3, 0x36F2, 0x0691, 0x16B0, 0x6657, 0x7676, 0x4615, 0x5634],
    [0xD94C, 0xC96D, 0xF90E, 0xE92F, 0x99C8, 0x89E9, 0xB98A, 0xA9AB,
     0x5844, 0x4865, 0x7806, 0x6827, 0x18C0, 0x08E1, 0x3882, 0x28A3],
    [0xCB7D, 0xDB5C, 0xEB3F, 0xFB1E, 0x8BF9, 0x9BD8, 0xABBB, 0xBB9A,
     0x4A75, 0x5A54, 0x6A37, 0x7A16, 0x0AF1, 0x1AD0, 0x2AB3, 0x3A92],
    [0xFD2E, 0xED0F, 0xDD6C, 0xCD4D, 0xBDAA, 0xAD8B, 0x9DE8, 0x8DC9,
     0x7C26, 0x6C07, 0x5C64, 0x4C45, 0x3CA2, 0x2C83, 0x1CE0, 0x0CC1],
    [0xEF1F, 0xFF3E, 0xCF5D, 0xDF7C, 0xAF9B, 0xBFBA, 0x8FD9, 0x9FF8,
     0x6E17, 0x7E36, 0x4E55, 0x5E74, 0x2E93, 0x3EB2, 0x0ED1, 0x1EF0]
  ]

  /** One bit of polynomial division. */
  function Shift(crc: bv16): bv16 {
    if crc & 0x8000 != 0 then (crc << 1) ^ POLY else crc << 1
  }

  function Shift8(crc: bv16): bv16 {
    Shift(Shift(Shift(Shift(Shift(Shift(Shift(Shift(crc))))))))
  }

  function High(bit: bool): bv16 {
    if bit then 0x8000 else 0
  }

  /** The register after one more message bit. */
  function BitIn(crc: bv16, bit: bool): bv16 {
    Shift(crc ^ High(bit))
  }

  /** The CRC of a sequence of bits: the definition everything below is measured against. */
  ghost function CrcOfBits(crc: bv16, bits: seq<bool>): bv16 {
    Fold(BitIn, crc, bits)
  }

  /** The bits of a byte, most significant first. */
  ghost function BitsOfByte(b: bv8): seq<bool> {
    [b & 0x80 != 0, b & 0x40 != 0, b & 0x20 != 0, b & 0x10 != 0, b & 0x08 != 0, b & 0x04 != 0, b & 0x02 != 0,
     b & 0x01 != 0]
  }

  ghost function Bits(msg: seq<bv8>): seq<bool> {
    if msg == [] then [] else BitsOfByte(msg[0]) + Bits(msg[1..])
  }

  ghost function Crc(crc: bv16, msg: seq<bv8>): bv16 {
    CrcOfBits(crc, Bits(msg))
  }

  lemma Associative(x: seq<bool>, y: seq<bool>, z: seq<bool>)
    ensures (x + y) + z == x + (y + z)
  {
  }

  lemma {:induction false} BitsConcat(a: seq<bv8>, b: seq<bv8>)
    ensures Bits(a + b) == Bits(a) + Bits(b)
  {
    if a == [] {
      assert a + b == b;
    } else {
      BitsConcat(a[1..], b);
      assert (a + b)[1..] == a[1..] + b;
      Associative(BitsOfByte(a[0]), Bits(a[1..]), Bits(b));
    }
  }

  /** A CRC can be continued: that of a concatenation starts where the first part ended. */
  lemma CrcComposes(crc: bv16, a: seq<bv8>, b: seq<bv8>)
    ensures Crc(crc, a + b) == Crc(Crc(crc, a), b)
  {
    BitsConcat(a, b);
    FoldConcat(BitIn, crc, Bits(a), Bits(b));
  }

  function Top(d: bv16): bool {
    d & 0x8000 != 0
  }

  function Left(d: bv16): bv16 {
    d << 1
  }

  function Xor(a: bv16, b: bv16): bv16 {
    a ^ b
  }

  lemma XorZero(a: bv16)
    ensures a ^ 0 == a
  {
  }

  lemma XorCrcSet(crc: bv16, d: bv16)
    requires d & 0x8000 == 0 && crc & 0x8000 != 0
    ensures Shift(crc) ^ (d << 1) == Shift(crc ^ d)
  {
  }

  lemma XorWordSet(crc: bv16, d: bv16)
    requires d & 0x8000 != 0 && crc & 0x8000 == 0
    ensures Shift(crc ^ 0x8000) ^ (d << 1) == Shift(crc ^ d)
  {
  }

  lemma PullBothClear(crc: bv16, d: bv16)
    requires d & 0x8000 == 0 && crc & 0x8000 == 0
    ensures Xor(BitIn(crc, Top(d)), Left(d)) == Shift(Xor(crc, d))
  {
  }

  lemma PullCrcSet(crc: bv16, d: bv16)
    requires d & 0x8000 == 0 && crc & 0x8000 != 0
    ensures Xor(BitIn(crc, Top(d)), Left(d)) == Shift(Xor(crc, d))
  {
    XorZero(crc);
    XorCrcSet(crc, d);
  }

  lemma PullWordSet(crc: bv16, d: bv16)
    requires d & 0x8000 != 0 && crc & 0x8000 == 0
    ensures Xor(BitIn(crc, Top(d)), Left(d)) == Shift(Xor(crc, d))
  {
    XorWordSet(crc, d);
  }

  lemma PullBothSet(crc: bv16, d: bv16)
    requires d & 0x8000 != 0 && crc & 0x8000 != 0
    ensures Xor(BitIn(crc, Top(d)), Left(d)) == Shift(Xor(crc, d))
  {
  }

  /** One bit fed in is one bit of the whole word shifted through. */
  lemma PullBit(crc: bv16, d: bv16)
    ensures Xor(BitIn(crc, Top(d)), Left(d)) == Shift(Xor(crc, d))
  {
    if d & 0x8000 == 0 {
      if crc & 0x8000 == 0 {
        PullBothClear(crc, d);
      } else {
        PullCrcSet(crc, d);
      }
    } else {
      if crc & 0x8000 == 0 {
        PullWordSet(crc, d);
      } else {
        PullBothSet(crc, d);
      }
    }
  }

  /** The `n` most significant bits of a word. */
  ghost function TopBits(d: bv16, n: nat): seq<bool> {
    Leading(Top, Left, d, n)
  }

  lemma PullAnyBit()
    ensures forall x: bv16, y: bv16 :: Xor(BitIn(x, Top(y)), Left(y)) == Shift(Xor(x, y))
  {
    forall x: bv16, y: bv16
      ensures Xor(BitIn(x, Top(y)), Left(y)) == Shift(Xor(x, y))
    {
      PullBit(x, y);
    }
  }

  /** Feeding the top bits of a word one by one is the same as adding the word first and then
      shifting, as far as the rest of the word is set aside. */
  lemma WordIn(crc: bv16, d: bv16, n: nat)
    ensures Xor(CrcOfBits(crc, TopBits(d, n)), Iterate(Left, d, n)) == Iterate(Shift, Xor(crc, d), n)
  {
    PullAnyBit();
    FoldWord(BitIn, Shift, Xor, Top, Left, crc, d, n);
  }

  /** A byte's bits are the top bits of the word that holds it in its high half. */
  lemma ByteAsWord(b: bv8)
    ensures BitsOfByte(b) == TopBits((b as bv16) << 8, 8)
    ensures Iterate(Left, (b as bv16) << 8, 8) == 0
  {
    TopsOfByte(b);
    LeadingEight(Top, Left, (b as bv16) << 8, (b as bv16) << 12);
  }

  lemma TopsOfByte(b: bv8)
    ensures var d := (b as bv16) << 8;
            && Top(d) == (b & 0x80 != 0) && Top(Left(d)) == (b & 0x40 != 0) && Top(Left(Left(d))) == (b & 0x20 != 0)
            && Top(Left(Left(Left(d)))) == (b & 0x10 != 0)
    ensures var d := ((b as bv16) << 12);
            && Top(d) == (b & 0x08 != 0) && Top(Left(d)) == (b & 0x04 != 0) && Top(Left(Left(d))) == (b & 0x02 != 0)
            && Top(Left(Left(Left(d)))) == (b & 0x01 != 0) && Left(Left(Left(Left(d)))) == 0
    ensures Left(Left(Left(Left((b as bv16) << 8)))) == (b as bv16) << 12
  {
  }

  lemma IterateEight(x: bv16)
    ensures Iterate(Shift, x, 8) == Shift8(x)
  {
    IterateFour(x);
    IterateFour(Shift(Shift(Shift(Shift(x)))));
  }

  lemma IterateFour(x: bv16)
    ensures Iterate(Shift, x, 8) == Iterate(Shift, Shift(Shift(Shift(Shift(x)))), 4)
    ensures Iterate(Shift, x, 4) == Shift(Shift(Shift(Shift(x))))
  {
    var x1 := Shift(x);
    var x2 := Shift(x1);
    var x3 := Shift(x2);
    assert Iterate(Shift, x, 8) == Iterate(Shift, x1, 7) == Iterate(Shift, x2, 6) == Iterate(Shift, x3, 5);
    assert Iterate(Shift, x, 4) == Iterate(Shift, x1, 3) == Iterate(Shift, x2, 2) == Iterate(Shift, x3, 1);
  }

  /** The register after one more byte. */
  function ByteIn(crc: bv16, b: bv8): bv16 {
    Shift8(Xor(crc, (b as bv16) << 8))
  }

  /** Byte by byte: one byte is added to the high half and shifted through. */
  lemma CrcOfByte(crc: bv16, b: bv8)
    ensures Crc(crc, [b]) == ByteIn(crc, b)
  {
    var d := (b as bv16) << 8;
    assert Bits([b]) == BitsOfByte(b) by {
      assert [b][1..] == [];
    }
    ByteAsWord(b);
    WordIn(crc, d, 8);
    XorZero(CrcOfBits(crc, TopBits(d, 8)));
    IterateEight(Xor(crc, d));
  }

  /** The low byte takes no part in the shifts of a whole byte, except that it moves up. */
  lemma LowByte(x: bv16, y: bv16)
    requires y < 0x100
    ensures Shift8(Xor(x, y)) == Xor(Shift8(x), y << 8)
  {
    LowBits(y);
    LeadingEight(Top, Left, y, y << 4);
    WordIn(x, y, 8);
    IterateEight(Xor(x, y));
    CrcOfByte(x, 0);
    assert TopBits(y, 8) == Bits([0]) by {
      assert [0 as bv8][1..] == [];
    }
    XorZero(x);
  }

  lemma LowBits(y: bv16)
    requires y < 0x100
    ensures !Top(y) && !Top(Left(y)) && !Top(Left(Left(y))) && !Top(Left(Left(Left(y))))
            && Left(Left(Left(Left(y)))) == y << 4
    ensures !Top(y << 4) && !Top(Left(y << 4)) && !Top(Left(Left(y << 4))) && !Top(Left(Left(Left(y << 4))))
    ensures Left(Left(Left(Left(y << 4)))) == y << 8
    ensures BitsOfByte(0) == [false, false, false, false, false, false, false, false]
  {
  }

  /** Sixteen consecutive entries, computed bit by bit. */
  function Row(base: bv16): seq<bv16> {
    [Shift8(base), Shift8(base ^ 0x100), Shift8(base ^ 0x200), Shift8(base ^ 0x300),
     Shift8(base ^ 0x400), Shift8(base ^ 0x500), Shift8(base ^ 0x600), Shift8(base ^ 0x700),
     Shift8(base ^ 0x800), Shift8(base ^ 0x900), Shift8(base ^ 0xA00), Shift8(base ^ 0xB00),
     Shift8(base ^ 0xC00), Shift8(base ^ 0xD00), Shift8(base ^ 0xE00), Shift8(base ^ 0xF00)]
  }

  lemma TableRows0()
    ensures TABLE[0] == Row(0x0000) && TABLE[1] == Row(0x1000)
  {
  }

  lemma TableRows2()
    ensures TABLE[2] == Row(0x2000) && TABLE[3] == Row(0x3000)
  {
  }

  lemma TableRows4()
    ensures TABLE[4] == Row(0x4000) && TABLE[5] == Row(0x5000)
  {
  }

  lemma TableRows6()
    ensures TABLE[6] == Row(0x6000) && TABLE[7] == Row(0x7000)
  {
  }

  lemma TableRows8()
    ensures TABLE[8] == Row(0x8000) && TABLE[9] == Row(0x9000)
  {
  }

  lemma TableRowsA()
    ensures TABLE[10] == Row(0xA000) && TABLE[11] == Row(0xB000)
  {
  }

  lemma TableRowsC()
    ensures TABLE[12] == Row(0xC000) && TABLE[13] == Row(0xD000)
  {
  }

  lemma TableRowsE()
    ensures TABLE[14] == Row(0xE000) && TABLE[15] == Row(0xF000)
  {
  }

  lemma TableRowLow(h: bv16)
    requires h < 8
    ensures TABLE[h as int] == Row(h << 12)
  {
    hide Row;
    if
    case h == 0 => TableRows0();
    case h == 1 => TableRows0();
    case h == 2 => TableRows2();
    case h == 3 => TableRows2();
    case h == 4 => TableRows4();
    case h == 5 => TableRows4();
    case h == 6 => TableRows6();
    case h == 7 => TableRows6();
  }

  lemma TableRowHigh(h: bv16)
    requires 8 <= h < 16
    ensures TABLE[h as int] == Row(h << 12)
  {
    hide Row;
    if
    case h == 8 => TableRows8();
    case h == 9 => TableRows8();
    case h == 10 => TableRowsA();
    case h == 11 => TableRowsA();
    case h == 12 => TableRowsC();
    case h == 13 => TableRowsC();
    case h == 14 => TableRowsE();
    case h == 15 => TableRowsE();
  }

  lemma TableRow(h: bv16)
    requires h < 16
    ensures TABLE[h as int] == Row(h << 12)
  {
    if h < 8 {
      TableRowLow(h);
    } else {
      TableRowHigh(h);
    }
  }

  lemma RowFirst(base: bv16, l: bv16)
    requires l == 0
    ensures Row(base)[l as int] == Shift8(base ^ (l << 8))
  {
    assert base ^ (l << 8) == base;
  }

  lemma RowPart0(base: bv16, l: bv16)
    requires 1 <= l < 4
    ensures Row(base)[l as int] == Shift8(base ^ (l << 8))
  {
    hide Shift8;
    if
    case l == 1 => assert l << 8 == 0x100;
    case l == 2 => assert l << 8 == 0x200;
    case l == 3 => assert l << 8 == 0x300;
  }

  lemma RowPart1(base: bv16, l: bv16)
    requires 4 <= l < 8
    ensures Row(base)[l as int] == Shift8(base ^ (l << 8))
  {
    hide Shift8;
    if
    case l == 4 => assert l << 8 == 0x400;
    case l == 5 => assert l << 8 == 0x500;
    case l == 6 => assert l << 8 == 0x600;
    case l == 7 => assert l << 8 == 0x700;
  }

  lemma RowPart2(base: bv16, l: bv16)
    requires 8 <= l < 12
    ensures Row(base)[l as int] == Shift8(base ^ (l << 8))
  {
    hide Shift8;
    if
    case l == 8 => assert l << 8 == 0x800;
    case l == 9 => assert l << 8 == 0x900;
    case l == 10 => assert l << 8 == 0xA00;
    case l == 11 => assert l << 8 == 0xB00;
  }

  lemma RowPart3(base: bv16, l: bv16)
    requires 12 <= l < 16
    ensures Row(base)[l as int] == Shift8(base ^ (l << 8))
  {
    hide Shift8;
    if
    case l == 12 => assert l << 8 == 0xC00;
    case l == 13 => assert l << 8 == 0xD00;
    case l == 14 => assert l << 8 == 0xE00;
    case l == 15 => assert l << 8 == 0xF00;
  }

  lemma RowEntry(base: bv16, l: bv16)
    requires l < 16
    ensures Row(base)[l as int] == Shift8(base ^ (l << 8))
  {
    if
    case l == 0 => RowFirst(base, l);
    case 1 <= l < 4 => RowPart0(base, l);
    case 4 <= l < 8 => RowPart1(base, l);
    case 8 <= l < 12 => RowPart2(base, l);
    case 12 <= l => RowPart3(base, l);
  }

  /** The table entry for a byte value. */
  function Entry(i: bv16): bv16
    requires i < 0x100
  {
    TableWidth(i);
    TABLE[(i >> 4) as int][(i & 0xF) as int]
  }

  lemma TableWidth(i: bv16)
    requires i < 0x100
    ensures (i >> 4) < 16 && (i & 0xF) < 16
    ensures (i >> 4) as int < |TABLE| && (i & 0xF) as int < |TABLE[(i >> 4) as int]|
  {
    TableRow(i >> 4);
  }

  /** Every table entry is its index shifted through eight times. */
  lemma EntryIsShifted(i: bv16)
    requires i < 0x100
    ensures Entry(i) == Shift8(i << 8)
  {
    hide Shift8, Row;
    TableWidth(i);
    TableRow(i >> 4);
    RowEntry((i >> 4) << 12, i & 0xF);
    assert ((i >> 4) << 12) ^ ((i & 0xF) << 8) == i << 8;
  }

  /** The high byte of the register and the message byte select the entry. */
  lemma TableStep(crc: bv16, b: bv8)
    ensures (crc >> 8) ^ (b as bv16) < 0x100
    ensures Xor(crc << 8, Entry((crc >> 8) ^ (b as bv16))) == ByteIn(crc, b)
  {
    SplitRegister(crc, b);
    hide Entry, Shift8, Xor;
    EntryStep(crc << 8, (crc >> 8) ^ (b as bv16), crc & 0xFF);
  }

  lemma EntryStep(shifted: bv16, i: bv16, y: bv16)
    requires i < 0x100 && y < 0x100 && y << 8 == shifted
    ensures Xor(shifted, Entry(i)) == Shift8(Xor(i << 8, y))
  {
    hide Entry, Shift8;
    EntryIsShifted(i);
    LowByte(i << 8, y);
  }

  lemma SplitRegister(crc: bv16, b: bv8)
    ensures (crc >> 8) ^ (b as bv16) < 0x100 && crc & 0xFF < 0x100
    ensures Xor(((crc >> 8) ^ (b as bv16)) << 8, crc & 0xFF) == Xor(crc, (b as bv16) << 8)
    ensures (crc & 0xFF) << 8 == crc << 8
    ensures forall x: bv16, y: bv16 :: Xor(x, y) == Xor(y, x)
  {
  }

  /** The table-driven `Crc16CalcBlock`. */
  method CalcBlockByTable(msg: seq<bv8>, init: bv16) returns (crc: bv16)
    ensures crc == Crc(init, msg)
  {
    crc := init;
    var i := 0;
    while i < |msg|
      invariant i <= |msg|
      invariant crc == Crc(init, msg[..i])
    {
      TableStep(crc, msg[i]);
      CrcNext(init, msg, i);
      crc := Xor(crc << 8, Entry((crc >> 8) ^ (msg[i] as bv16)));
      i := i + 1;
    }
    assert msg[..i] == msg;
  }

  lemma CrcNext(init: bv16, msg: seq<bv8>, i: nat)
    requires i < |msg|
    ensures Crc(init, msg[..i + 1]) == ByteIn(Crc(init, msg[..i]), msg[i])
  {
    assert msg[..i + 1] == msg[..i] + [msg[i]];
    CrcComposes(init, msg[..i], [msg[i]]);
    CrcOfByte(Crc(init, msg[..i]), msg[i]);
  }

  /** The bit-by-bit `Crc16CalcBlock`. */
  method CalcBlockByLoop(msg: seq<bv8>, init: bv16) returns (crc: bv16)
    ensures crc == Crc(init, msg)
  {
    crc := init;
    var i := 0;
    while i < |msg|
      invariant i <= |msg|
      invariant crc == Crc(init, msg[..i])
    {
      crc := LoopByte(crc, msg[i]);
      CrcNext(init, msg, i);
      i := i + 1;
    }
    assert msg[..i] == msg;
  }

  method LoopByte(start: bv16, b: bv8) returns (crc: bv16)
    ensures crc == ByteIn(start, b)
  {
    crc := start;
    var data := (b as bv16) << 8;
    ghost var d := data;
    var i := 8;
    while i > 0
      invariant 0 <= i <= 8
      invariant crc == CrcOfBits(start, TopBits(d, 8 - i)) && data == Iterate(Left, d, 8 - i)
    {
      LeadingNext(Top, Left, d, 8 - i);
      FoldNext(BitIn, start, TopBits(d, 8 - i), Top(data));
      crc, data := LoopBit(crc, data);
      i := i - 1;
    }
    ByteDone(start, b);
  }

  lemma ByteDone(start: bv16, b: bv8)
    ensures CrcOfBits(start, TopBits((b as bv16) << 8, 8)) == ByteIn(start, b)
  {
    hide ByteIn, TopBits;
    ByteAsWord(b);
    CrcOfByte(start, b);
    assert Bits([b]) == BitsOfByte(b) by {
      assert [b][1..] == [];
    }
  }

  method LoopBit(crc: bv16, data: bv16) returns (crc': bv16, data': bv16)
    ensures crc' == BitIn(crc, Top(data)) && data' == Left(data)
  {
    if (data ^ crc) & 0x8000 != 0 {
      crc' := (crc << 1) ^ POLY;
    } else {
      crc' := crc << 1;
    }
    data' := data << 1;
  }

  lemma ShiftZero()
    ensures Shift(0) == 0 && Shift8(0) == 0
  {
  }

  /** The register as two bytes, the high one first. */
  function BigEndian(crc: bv16): seq<bv8> {
    [(crc >> 8) as bv8, (crc & 0xFF) as bv8]
  }

  lemma SplitBytes(crc: bv16)
    ensures Xor(crc, (((crc >> 8) as bv8) as bv16) << 8) == Xor(0, crc & 0xFF)
    ensures ((crc & 0xFF) as bv8) as bv16 == crc & 0xFF && crc & 0xFF < 0x100
    ensures forall x: bv16 :: Xor(x, x) == 0
    ensures forall x: bv16 :: Xor(0, x) == x
  {
  }

  lemma HighByteIn(c: bv16)
    ensures ByteIn(c, (c >> 8) as bv8) == (c & 0xFF) << 8
  {
    SplitBytes(c);
    ShiftZero();
    LowByte(0, c & 0xFF);
  }

  lemma LowByteIn(c: bv16)
    ensures ByteIn((c & 0xFF) << 8, (c & 0xFF) as bv8) == 0
  {
    SplitBytes(c);
    ShiftZero();
  }

  /** Appending the CRC, high byte first, leaves the register at zero. */
  lemma ResidueIsZero(init: bv16, msg: seq<bv8>)
    ensures Crc(init, msg + BigEndian(Crc(init, msg))) == 0
  {
    var c := Crc(init, msg);
    TwoBytesIn(c, (c >> 8) as bv8, (c & 0xFF) as bv8);
    CrcComposes(init, msg, BigEndian(c));
    HighByteIn(c);
    LowByteIn(c);
  }

  lemma TwoBytesIn(c: bv16, h: bv8, l: bv8)
    ensures Crc(c, [h, l]) == ByteIn(ByteIn(c, h), l)
  {
    assert [h, l] == [h] + [l];
    CrcComposes(c, [h], [l]);
    CrcOfByte(c, h);
    CrcOfByte(ByteIn(c, h), l);
  }

  const MASKS: seq<bv16> := [0x0000, 0x0001, 0x0003, 0x0007, 0x000F, 0x001F, 0x003F, 0x007F, 0x00FF,
                             0x01FF, 0x03FF, 0x07FF, 0x0FFF, 0x1FFF, 0x3FFF, 0x7FFF, 0xFFFF]

  predicate NextMask(m: bv16, m': bv16) {
    m' == (m << 1) | 1 && m & 0x8000 == 0
  }

  predicate Clear(w: bv16, m: bv16) {
    w & m == 0
  }

  lemma MaskStep(k: nat)
    requires k < 16
    ensures NextMask(MASKS[k], MASKS[k + 1])
  {
  }

  /** A word with `bit` in front of the bits of `rest`. */
  function Cons(bit: bool, rest: bv16): bv16 {
    High(bit) | (rest >> 1)
  }

  lemma ConsMask(bit: bool, rest: bv16, m: bv16, m': bv16)
    requires NextMask(m, m') && Clear(rest, m')
    ensures Clear(Cons(bit, rest), m)
  {
    if bit {
    } else {
    }
  }

  lemma ConsTop(bit: bool, rest: bv16)
    ensures Top(Cons(bit, rest)) == bit
  {
    if bit {
    } else {
    }
  }

  lemma ConsLeft(bit: bool, rest: bv16)
    requires rest & 1 == 0
    ensures Left(Cons(bit, rest)) == rest
  {
    if bit {
    } else {
    }
  }

  lemma LowestBit(rest: bv16, m: bv16, m': bv16)
    requires NextMask(m, m') && Clear(rest, m')
    ensures rest & 1 == 0
  {
  }

  /** The lowest `k` bits are zero. */
  predicate Room(w: bv16, k: nat) {
    k <= 16 && Clear(w, MASKS[k])
  }

  lemma ConsRoom(bit: bool, x: bv16, k: nat)
    requires k < 16 && Room(x, k + 1)
    ensures Room(Cons(bit, x), k)
  {
    MaskStep(k);
    ConsMask(bit, x, MASKS[k], MASKS[k + 1]);
  }

  lemma RoomIsEven(x: bv16, k: nat)
    requires k < 16 && Room(x, k + 1)
    ensures x & 1 == 0
  {
    MaskStep(k);
    LowestBit(x, MASKS[k], MASKS[k + 1]);
  }

  /** Up to sixteen bits, in the top of a word. */
  ghost function Word(w: seq<bool>): bv16 {
    Packed(Cons, 0, w)
  }

  lemma ConsGivesBack(b: bool, x: bv16, k: nat)
    ensures GivesBack(Cons, Top, Left, Room, 16, b, x, k)
  {
    if k < 16 && Room(x, k + 1) {
      ConsRoom(b, x, k);
      ConsTop(b, x);
      RoomIsEven(x, k);
      ConsLeft(b, x);
    }
  }

  lemma WordHolds(w: seq<bool>)
    requires |w| <= 16
    ensures TopBits(Word(w), |w|) == w && Iterate(Left, Word(w), |w|) == 0
    ensures w != [] ==> Top(Word(w)) == w[0]
  {
    forall b: bool, x: bv16, k: nat
      ensures GivesBack(Cons, Top, Left, Room, 16, b, x, k)
    {
      ConsGivesBack(b, x, k);
    }
    ZeroHasRoom();
    PackedHolds(Cons, 0, Top, Left, Room, 16, w);
  }

  lemma ZeroHasRoom()
    ensures Room(0, 16)
  {
  }

  lemma ShiftKeepsNonzero()
    ensures forall x: bv16 :: Shift(x) == 0 ==> x == 0
    ensures forall x: bv16 :: BitIn(x, false) == 0 ==> x == 0
    ensures BitIn(0, false) == 0
  {
  }

  lemma WordIsNonzero(w: seq<bool>)
    requires 0 < |w| <= 16 && w[0]
    ensures CrcOfBits(0, w) != 0
  {
    var d := Word(w);
    WordHolds(w);
    WordIn(0, d, |w|);
    TopIsNonzero(d);
    ShiftKeepsNonzero();
    IterateNonzero(Shift, 0, Xor(0, d), |w|);
    XorZero(CrcOfBits(0, w));
  }

  lemma TopIsNonzero(d: bv16)
    requires Top(d)
    ensures Xor(0, d) != 0
  {
  }

  /** A difference that starts at position `a` and spans at most sixteen bits shows in the register. */
  lemma BurstShows(e: seq<bool>, a: nat)
    requires a < |e| && e[a]
    requires forall i | 0 <= i < |e| && !(a <= i < a + 16) :: !e[i]
    ensures CrcOfBits(0, e) != 0
  {
    var b := if a + 16 < |e| then a + 16 else |e|;
    assert e == e[..a] + (e[a..b] + e[b..]);
    FoldConcat(BitIn, 0, e[..a], e[a..b] + e[b..]);
    ShiftKeepsNonzero();
    FoldZero(BitIn, 0, e[..a]);
    FoldConcat(BitIn, 0, e[a..b], e[b..]);
    WordIsNonzero(e[a..b]);
    FoldNonzero(BitIn, 0, CrcOfBits(0, e[a..b]), e[b..]);
  }

  lemma ShiftClearLinear(x: bv16, y: bv16)
    requires x & 0x8000 == 0 && y & 0x8000 == 0
    ensures Xor(Shift(x), Shift(y)) == Shift(Xor(x, y))
  {
  }

  lemma ShiftMixedLinear(x: bv16, y: bv16)
    requires x & 0x8000 != 0 && y & 0x8000 == 0
    ensures Xor(Shift(x), Shift(y)) == Shift(Xor(x, y))
    ensures Xor(Shift(y), Shift(x)) == Shift(Xor(y, x))
  {
  }

  lemma ShiftSetLinear(x: bv16, y: bv16)
    requires x & 0x8000 != 0 && y & 0x8000 != 0
    ensures Xor(Shift(x), Shift(y)) == Shift(Xor(x, y))
  {
  }

  lemma ShiftLinear(x: bv16, y: bv16)
    ensures Xor(Shift(x), Shift(y)) == Shift(Xor(x, y))
  {
    if
    case x & 0x8000 == 0 && y & 0x8000 == 0 => ShiftClearLinear(x, y);
    case x & 0x8000 != 0 && y & 0x8000 == 0 => ShiftMixedLinear(x, y);
    case x & 0x8000 == 0 && y & 0x8000 != 0 => ShiftMixedLinear(y, x);
    case x & 0x8000 != 0 && y & 0x8000 != 0 => ShiftSetLinear(x, y);
  }

  lemma ShiftLinearTo(x: bv16, y: bv16, z: bv16)
    requires z == Xor(x, y)
    ensures Xor(Shift(x), Shift(y)) == Shift(z)
  {
    ShiftLinear(x, y);
  }

  lemma BitInFalse(x: bv16)
    ensures BitIn(x, false) == Shift(x)
  {
    XorZero(x);
  }

  lemma BitInTrue(x: bv16)
    ensures BitIn(x, true) == Shift(Xor(x, 0x8000))
  {
  }

  lemma XorLeft(x: bv16, y: bv16, z: bv16)
    ensures Xor(Xor(x, y), z) == Xor(Xor(x, z), y)
  {
  }

  lemma XorRight(x: bv16, y: bv16, z: bv16)
    ensures Xor(Xor(x, y), z) == Xor(x, Xor(y, z))
  {
  }

  lemma XorBoth(x: bv16, y: bv16, z: bv16)
    ensures Xor(x, y) == Xor(Xor(x, z), Xor(y, z))
  {
    XorRight(x, z, Xor(y, z));
    XorTwice(y, z);
  }

  lemma XorTwice(y: bv16, z: bv16)
    ensures Xor(z, Xor(y, z)) == y
  {
  }

  lemma BothFalseLinear(x: bv16, y: bv16)
    ensures Xor(BitIn(x, false), BitIn(y, false)) == BitIn(Xor(x, y), false)
  {
    BitInFalse(x);
    BitInFalse(y);
    BitInFalse(Xor(x, y));
    ShiftLinear(x, y);
  }

  lemma BothTrueLinear(x: bv16, y: bv16)
    ensures Xor(BitIn(x, true), BitIn(y, true)) == BitIn(Xor(x, y), false)
  {
    BitInTrue(x);
    BitInTrue(y);
    BitInFalse(Xor(x, y));
    XorBoth(x, y, 0x8000);
    ShiftLinearTo(Xor(x, 0x8000), Xor(y, 0x8000), Xor(x, y));
  }

  lemma LeftTrueLinear(x: bv16, y: bv16)
    ensures Xor(BitIn(x, true), BitIn(y, false)) == BitIn(Xor(x, y), true)
  {
    BitInTrue(x);
    BitInFalse(y);
    BitInTrue(Xor(x, y));
    XorLeft(x, y, 0x8000);
    ShiftLinearTo(Xor(x, 0x8000), y, Xor(Xor(x, y), 0x8000));
  }

  lemma RightTrueLinear(x: bv16, y: bv16)
    ensures Xor(BitIn(x, false), BitIn(y, true)) == BitIn(Xor(x, y), true)
  {
    BitInFalse(x);
    BitInTrue(y);
    BitInTrue(Xor(x, y));
    XorRight(x, y, 0x8000);
    ShiftLinearTo(x, Xor(y, 0x8000), Xor(Xor(x, y), 0x8000));
  }

  lemma BitInLinear(x: bv16, y: bv16, p: bool, q: bool)
    ensures Xor(BitIn(x, p), BitIn(y, q)) == BitIn(Xor(x, y), p != q)
  {
    if
    case !p && !q => BothFalseLinear(x, y);
    case p && q => BothTrueLinear(x, y);
    case p && !q => LeftTrueLinear(x, y);
    case !p && q => RightTrueLinear(x, y);
  }

  /** Two messages' registers differ by the register of their difference. */
  lemma Difference(init: bv16, a: seq<bool>, b: seq<bool>)
    requires |a| == |b|
    ensures Xor(CrcOfBits(init, a), CrcOfBits(init, b)) == CrcOfBits(0, Flags(a, b))
  {
    forall x: bv16, y: bv16, p: bool, q: bool
      ensures Xor(BitIn(x, p), BitIn(y, q)) == BitIn(Xor(x, y), p != q)
    {
      BitInLinear(x, y, p, q);
    }
    FoldLinear(BitIn, Xor, init, init, a, b);
    XorSelf(init);
  }

  lemma XorSelf(x: bv16)
    ensures Xor(x, x) == 0
  {
  }

  lemma ByteFromBits(a: bv8, b: bv8)
    requires BitsOfByte(a) == BitsOfByte(b)
    ensures a == b
  {
    var x, y := BitsOfByte(a), BitsOfByte(b);
    assert x[0] == y[0] && x[1] == y[1] && x[2] == y[2] && x[3] == y[3] && x[4] == y[4] && x[5] == y[5]
      && x[6] == y[6] && x[7] == y[7];
  }

  lemma {:induction false} BitsDetermine(a: seq<bv8>, b: seq<bv8>)
    requires |a| == |b|
    ensures |Bits(a)| == |Bits(b)| == 8 * |a|
    ensures Bits(a) == Bits(b) ==> a == b
  {
    if a != [] {
      BitsDetermine(a[1..], b[1..]);
      if Bits(a) == Bits(b) {
        assert Bits(a)[..8] == BitsOfByte(a[0]) && Bits(b)[..8] == BitsOfByte(b[0]);
        assert Bits(a)[8..] == Bits(a[1..]) && Bits(b)[8..] == Bits(b[1..]);
        ByteFromBits(a[0], b[0]);
      }
    }
  }

  /** The first position with a flag set. */
  lemma FirstSet(e: seq<bool>, i: nat) returns (a: nat)
    requires i < |e| && e[i]
    ensures a <= i && e[a] && forall j | 0 <= j < a :: !e[j]
  {
    a := 0;
    while !e[a]
      invariant a <= i && forall j | 0 <= j < a :: !e[j]
      decreases i - a
    {
      a := a + 1;
    }
  }

  /** Two messages of equal length that differ, but only within sixteen consecutive bits, have
      different CRCs, whatever the initial value. */
  lemma BurstDetected(init: bv16, m: seq<bv8>, m': seq<bv8>, s: nat)
    requires |m| == |m'| && m != m' && |Bits(m)| == |Bits(m')|
    requires forall i | 0 <= i < |Bits(m)| && !(s <= i < s + 16) :: Bits(m)[i] == Bits(m')[i]
    ensures Crc(init, m) != Crc(init, m')
  {
    var x, y := Bits(m), Bits(m');
    var e := Flags(x, y);
    BitsDetermine(m, m');
    FlagsAt(x, y);
    var i :| 0 <= i < |x| && x[i] != y[i];
    var a := FirstSet(e, i);
    BurstShows(e, a);
    Difference(init, x, y);
    XorSelf(Crc(init, m));
  }

  lemma ByteLinear(x: bv16, y: bv16)
    ensures Xor(Iterate(Shift, x, 8), Iterate(Shift, y, 8)) == Iterate(Shift, Xor(x, y), 8)
  {
    forall u: bv16, v: bv16
      ensures Xor(Shift(u), Shift(v)) == Shift(Xor(u, v))
    {
      ShiftLinear(u, v);
    }
    IterateLinear(Shift, Xor, x, y, 8);
  }

  lemma OneByteApart(c: bv16)
    ensures ByteIn(c, 0x01) == Xor(ByteIn(c, 0x00), POLY)
  {
    IterateEight(c);
    IterateEight(0x100);
    IterateEight(Xor(c, 0x100));
    ByteLinear(c, 0x100);
    XorZero(c);
    TableRows0();
  }

  lemma SecondByteCancels(c: bv16)
    ensures ByteIn(Xor(c, POLY), 0x10) == Xor(ByteIn(c, 0x00), 0x2100)
  {
    assert Xor(Xor(c, POLY), 0x1000) == Xor(c, 0x21);
    XorZero(c);
    LowByte(c, 0x21);
  }

  lemma ThirdByteCancels(c: bv16)
    ensures ByteIn(Xor(c, 0x2100), 0x21) == ByteIn(c, 0x00)
  {
    assert Xor(Xor(c, 0x2100), 0x2100) == c;
    XorZero(c);
  }

  lemma ThreeBytesIn(c: bv16, x: bv8, y: bv8, z: bv8)
    ensures Crc(c, [x, y, z]) == ByteIn(ByteIn(ByteIn(c, x), y), z)
  {
    assert [x, y, z] == [x] + [y, z];
    CrcComposes(c, [x], [y, z]);
    CrcOfByte(c, x);
    TwoBytesIn(ByteIn(c, x), y, z);
  }

  /** Sixteen is the limit: a difference of seventeen bits that spells the polynomial goes unseen. */
  lemma SeventeenBitsUndetected(init: bv16)
    ensures Crc(init, [0x00, 0x00, 0x00]) == Crc(init, [0x01, 0x10, 0x21])
  {
    ThreeBytesIn(init, 0x00, 0x00, 0x00);
    ThreeBytesIn(init, 0x01, 0x10, 0x21);
    OneByteApart(init);
    SecondByteCancels(ByteIn(init, 0x00));
    ThirdByteCancels(ByteIn(ByteIn(init, 0x00), 0x00));
  }

  /** The receiver's check: the register ends at zero exactly when the two bytes appended are the
      CRC of the message, high byte first. */
  lemma ResidueChecksTrailer(init: bv16, msg: seq<bv8>, h: bv8, l: bv8)
    ensures Crc(init, msg + [h, l]) == 0 <==> [h, l] == BigEndian(Crc(init, msg))
  {
    ResidueIsZero(init, msg);
    var m, m' := msg + [h, l], msg + BigEndian(Crc(init, msg));
    if [h, l] != BigEndian(Crc(init, msg)) {
      BitsConcat(msg, [h, l]);
      BitsConcat(msg, BigEndian(Crc(init, msg)));
      BitsDetermine(m, m');
      BitsDetermine(msg, msg);
      assert m[|msg|..] == [h, l] && m'[|msg|..] == BigEndian(Crc(init, msg));
      BurstDetected(init, m, m', 8 * |msg|);
    }
  }
}
