/** CRC-16/MODBUS: the 256-entry table, and the shift register it stands for (section
    6.2.2 of MODBUS over Serial Line V1.02: reflected polynomial A001, start FFFF). */
module Crc16 {
  import opened Protocol

  const INIT: bv16 := 0xFFFF

  // ------------------------------------------------------------ shift register

  /** One shift: the bit that falls out selects the polynomial. */
  function Shift(c: bv16): bv16 { (c >> 1) ^ (0xA001 * (c & 1)) }

  function Shift4(c: bv16): bv16 { Shift(Shift(Shift(Shift(c)))) }
  function Shift8(c: bv16): bv16 { Shift4(Shift4(c)) }

  lemma ShiftCases(c: bv16)
    ensures c & 1 == 1 ==> Shift(c) == (c >> 1) ^ 0xA001
    ensures c & 1 != 1 ==> Shift(c) == c >> 1
  {}

  /** A byte in the low half of a register. */
  function Wide(b: Byte): (w: bv16)
    ensures w <= 0xFF
  {
    WideFacts(b);
    b as bv16
  }

  lemma WideFacts(b: Byte)
    ensures (b as bv16) as int == b
    ensures b as bv16 <= 0xFF
  {}

  lemma WideInjective(x: Byte, y: Byte)
    requires Wide(x) == Wide(y)
    ensures x == y
  {
    WideFacts(x);
    WideFacts(y);
  }

  /** The definition: xor the byte into the low half, shift eight times. */
  function Step(c: bv16, w: bv16): bv16 { Shift8(c ^ w) }

  function Crc(c: bv16, data: Bytes): bv16
    decreases |data|
  {
    if data == [] then c else Crc(Step(c, Wide(data[0])), data[1..])
  }

  // --------------------------------------------------------------------- table

  /** The entry of a row of eight that the low three bits of the index select. */
  function Pick(w: bv16, e0: bv16, e1: bv16, e2: bv16, e3: bv16, e4: bv16, e5: bv16, e6: bv16, e7: bv16): bv16 {
    if w & 4 == 0 then
      if w & 2 == 0 then if w & 1 == 0 then e0 else e1
      else if w & 1 == 0 then e2 else e3
    else
      if w & 2 == 0 then if w & 1 == 0 then e4 else e5
      else if w & 1 == 0 then e6 else e7
  }

  function Part0(w: bv16): bv16 {
    if w < 0x08 then Pick(w, 0x0000, 0xC0C1, 0xC181, 0x0140, 0xC301, 0x03C0, 0x0280, 0xC241)
    else if w < 0x10 then Pick(w, 0xC601, 0x06C0, 0x0780, 0xC741, 0x0500, 0xC5C1, 0xC481, 0x0440)
    else if w < 0x18 then Pick(w, 0xCC01, 0x0CC0, 0x0D80, 0xCD41, 0x0F00, 0xCFC1, 0xCE81, 0x0E40)
    else if w < 0x20 then Pick(w, 0x0A00, 0xCAC1, 0xCB81, 0x0B40, 0xC901, 0x09C0, 0x0880, 0xC841)
    else if w < 0x28 then Pick(w, 0xD801, 0x18C0, 0x1980, 0xD941, 0x1B00, 0xDBC1, 0xDA81, 0x1A40)
    else if w < 0x30 then Pick(w, 0x1E00, 0xDEC1, 0xDF81, 0x1F40, 0xDD01, 0x1DC0, 0x1C80, 0xDC41)
    else if w < 0x38 then Pick(w, 0x1400, 0xD4C1, 0xD581, 0x1540, 0xD701, 0x17C0, 0x1680, 0xD641)
    else Pick(w, 0xD201, 0x12C0, 0x1380, 0xD341, 0x1100, 0xD1C1, 0xD081, 0x1040)
  }

  function Part1(w: bv16): bv16 {
    if w < 0x48 then Pick(w, 0xF001, 0x30C0, 0x3180, 0xF141, 0x3300, 0xF3C1, 0xF281, 0x3240)
    else if w < 0x50 then Pick(w, 0x3600, 0xF6C1, 0xF781, 0x3740, 0xF501, 0x35C0, 0x3480, 0xF441)
    else if w < 0x58 then Pick(w, 0x3C00, 0xFCC1, 0xFD81, 0x3D40, 0xFF01, 0x3FC0, 0x3E80, 0xFE41)
    else if w < 0x60 then Pick(w, 0xFA01, 0x3AC0, 0x3B80, 0xFB41, 0x3900, 0xF9C1, 0xF881, 0x3840)
    else if w < 0x68 then Pick(w, 0x2800, 0xE8C1, 0xE981, 0x2940, 0xEB01, 0x2BC0, 0x2A80, 0xEA41)
    else if w < 0x70 then Pick(w, 0xEE01, 0x2EC0, 0x2F80, 0xEF41, 0x2D00, 0xEDC1, 0xEC81, 0x2C40)
    else if w < 0x78 then Pick(w, 0xE401, 0x24C0, 0x2580, 0xE541, 0x2700, 0xE7C1, 0xE681, 0x2640)
    else Pick(w, 0x2200, 0xE2C1, 0xE381, 0x2340, 0xE101, 0x21C0, 0x2080, 0xE041)
  }

  function Part2(w: bv16): bv16 {
    if w < 0x88 then Pick(w, 0xA001, 0x60C0, 0x6180, 0xA141, 0x6300, 0xA3C1, 0xA281, 0x6240)
    else if w < 0x90 then Pick(w, 0x6600, 0xA6C1, 0xA781, 0x6740, 0xA501, 0x65C0, 0x6480, 0xA441)
    else if w < 0x98 then Pick(w, 0x6C00, 0xACC1, 0xAD81, 0x6D40, 0xAF01, 0x6FC0, 0x6E80, 0xAE41)
    else if w < 0xA0 then Pick(w, 0xAA01, 0x6AC0, 0x6B80, 0xAB41, 0x6900, 0xA9C1, 0xA881, 0x6840)
    else if w < 0xA8 then Pick(w, 0x7800, 0xB8C1, 0xB981, 0x7940, 0xBB01, 0x7BC0, 0x7A80, 0xBA41)
    else if w < 0xB0 then Pick(w, 0xBE01, 0x7EC0, 0x7F80, 0xBF41, 0x7D00, 0xBDC1, 0xBC81, 0x7C40)
    else if w < 0xB8 then Pick(w, 0xB401, 0x74C0, 0x7580, 0xB541, 0x7700, 0xB7C1, 0xB681, 0x7640)
    else Pick(w, 0x7200, 0xB2C1, 0xB381, 0x7340, 0xB101, 0x71C0, 0x7080, 0xB041)
  }

  function Part3(w: bv16): bv16 {
    if w < 0xC8 then Pick(w, 0x5000, 0x90C1, 0x9181, 0x5140, 0x9301, 0x53C0, 0x5280, 0x9241)
    else if w < 0xD0 then Pick(w, 0x9601, 0x56C0, 0x5780, 0x9741, 0x5500, 0x95C1, 0x9481, 0x5440)
    else if w < 0xD8 then Pick(w, 0x9C01, 0x5CC0, 0x5D80, 0x9D41, 0x5F00, 0x9FC1, 0x9E81, 0x5E40)
    else if w < 0xE0 then Pick(w, 0x5A00, 0x9AC1, 0x9B81, 0x5B40, 0x9901, 0x59C0, 0x5880, 0x9841)
    else if w < 0xE8 then Pick(w, 0x8801, 0x48C0, 0x4980, 0x8941, 0x4B00, 0x8BC1, 0x8A81, 0x4A40)
    else if w < 0xF0 then Pick(w, 0x4E00, 0x8EC1, 0x8F81, 0x4F40, 0x8D01, 0x4DC0, 0x4C80, 0x8C41)
    else if w < 0xF8 then Pick(w, 0x4400, 0x84C1, 0x8581, 0x4540, 0x8701, 0x47C0, 0x4680, 0x8641)
    else Pick(w, 0x8201, 0x42C0, 0x4380, 0x8341, 0x4100, 0x81C1, 0x8081, 0x4040)
  }

  /** The 256 entries, in the rows of eight they are written in. */
  function Table(w: bv16): bv16
    requires w <= 0xFF
  {
    if w < 0x40 then Part0(w) else if w < 0x80 then Part1(w) else if w < 0xC0 then Part2(w) else Part3(w)
  }

  function Low(c: bv16): (b: Byte)
    ensures Wide(b) == c & 0xFF
  {
    SmallIsByte(c & 0xFF);
    (c & 0xFF) as int
  }

  function High(c: bv16): (b: Byte)
    ensures Wide(b) == c >> 8
  {
    SmallIsByte(c >> 8);
    (c >> 8) as int
  }

  lemma SmallIsByte(x: bv16)
    requires x <= 0xFF
    ensures x as int < 256 && (x as int) as bv16 == x
  {}

  /** The code's update: one shift by eight and one table look-up. */
  function Update(c: bv16, w: bv16): bv16 { (c >> 8) ^ Table((c ^ w) & 0xFF) }

  method Crc16(data: Bytes) returns (crc: bv16)
    ensures crc == Crc(INIT, data)
  {
    crc := INIT;
    for i := 0 to |data|
      invariant Crc(crc, data[i..]) == Crc(INIT, data)
    {
      UpdateIsStep(crc, Wide(data[i]));
      assert data[i..][0] == data[i] && data[i..][1..] == data[i + 1..];
      crc := Update(crc, Wide(data[i]));
    }
  }

  // ------------------------------------------------- the table is the register

  lemma Part0IsRegister(w: bv16)
    requires w < 0x40
    ensures Part0(w) == Shift8(w)
  {}

  lemma Part1IsRegister(w: bv16)
    requires 0x40 <= w < 0x80
    ensures Part1(w) == Shift8(w)
  {}

  lemma Part2IsRegister(w: bv16)
    requires 0x80 <= w < 0xC0
    ensures Part2(w) == Shift8(w)
  {}

  lemma Part3IsRegister(w: bv16)
    requires 0xC0 <= w < 0x100
    ensures Part3(w) == Shift8(w)
  {}

  /** Every table entry is eight shifts of its index. */
  lemma TableIsRegister(w: bv16)
    requires w <= 0xFF
    ensures Table(w) == Shift8(w)
  {
    if w < 0x40 { Part0IsRegister(w); } else if w < 0x80 { Part1IsRegister(w); } else if w < 0xC0 { Part2IsRegister(w); } else { Part3IsRegister(w); }
  }

  /** Over eight shifts the high half only moves down. */
  lemma HalvesApart(x: bv16)
    ensures Shift8(x) == (x >> 8) ^ Shift8(x & 0xFF)
  {
    if x & 1 == 0 {} else {}
  }

  lemma HighHalfKept(c: bv16, w: bv16)
    requires w <= 0xFF
    ensures (c ^ w) >> 8 == c >> 8
  {}

  /** The table-driven update is the bitwise one. */
  lemma UpdateIsStep(c: bv16, w: bv16)
    requires w <= 0xFF
    ensures Update(c, w) == Step(c, w)
  {
    HighHalfKept(c, w);
    HalvesApart(c ^ w);
    TableIsRegister((c ^ w) & 0xFF);
  }

  // ------------------------------------------------------------- error detection

  /** Nothing is lost in eight shifts. */
  lemma Shift8Injective(a: bv16, b: bv16)
    ensures Shift8(a) == Shift8(b) ==> a == b
  {}

  lemma XorInjective(a: bv16, x: bv16, y: bv16)
    ensures a ^ x == a ^ y ==> x == y
    ensures x ^ a == y ^ a ==> x == y
  {}

  /** Different registers stay different over equal bytes. */
  lemma StepKeepsApart(a: bv16, b: bv16, w: bv16)
    requires Step(a, w) == Step(b, w)
    ensures a == b
  {
    Shift8Injective(a ^ w, b ^ w);
    XorInjective(w, a, b);
  }

  /** Different bytes make equal registers different. */
  lemma StepTellsApart(c: bv16, x: bv16, y: bv16)
    requires Step(c, x) == Step(c, y)
    ensures x == y
  {
    Shift8Injective(c ^ x, c ^ y);
    XorInjective(c, x, y);
  }

  lemma {:induction false} CrcInjective(a: bv16, b: bv16, data: Bytes)
    requires Crc(a, data) == Crc(b, data)
    ensures a == b
    decreases |data|
  {
    if data != [] {
      CrcInjective(Step(a, Wide(data[0])), Step(b, Wide(data[0])), data[1..]);
      StepKeepsApart(a, b, Wide(data[0]));
    }
  }

  /** Replacing any one byte changes the check value. */
  lemma {:induction false} OneByteChanges(c: bv16, data: Bytes, k: nat, b: Byte)
    requires k < |data| && data[k] != b
    ensures Crc(c, data[k := b]) != Crc(c, data)
    decreases k
  {
    var changed := data[k := b];
    if k == 0 {
      assert changed[1..] == data[1..];
      if Crc(c, changed) == Crc(c, data) {
        CrcInjective(Step(c, Wide(b)), Step(c, Wide(data[0])), data[1..]);
        StepTellsApart(c, Wide(b), Wide(data[0]));
        WideInjective(b, data[0]);
      }
    } else {
      assert changed[1..] == data[1..][k - 1 := b];
      OneByteChanges(Step(c, Wide(data[0])), data[1..], k - 1, b);
    }
  }

  lemma {:induction false} CrcConcat(c: bv16, x: Bytes, y: Bytes)
    ensures Crc(c, x + y) == Crc(Crc(c, x), y)
    decreases |x|
  {
    if x == [] {
      assert x + y == y;
    } else {
      assert (x + y)[1..] == x[1..] + y;
      CrcConcat(Step(c, Wide(x[0])), x[1..], y);
    }
  }

  /** Data followed by its own check value, low byte first, leaves zero. */
  lemma Residue(c: bv16, data: Bytes)
    ensures Crc(c, data + [Low(Crc(c, data)), High(Crc(c, data))]) == 0
  {
    var d := Crc(c, data);
    CrcConcat(c, data, [Low(d), High(d)]);
    CrcOfTwo(d, Low(d), High(d));
    ZeroAfterOwnBytes(d, Wide(Low(d)), Wide(High(d)));
  }

  lemma CrcOfTwo(c: bv16, x: Byte, y: Byte)
    ensures Crc(c, [x, y]) == Step(Step(c, Wide(x)), Wide(y))
  {
    assert [x, y][1..] == [y];
    CrcOfOne(Step(c, Wide(x)), y);
  }

  lemma CrcOfOne(c: bv16, y: Byte)
    ensures Crc(c, [y]) == Step(c, Wide(y))
  {}

  lemma ZeroAfterOwnBytes(d: bv16, low: bv16, high: bv16)
    requires low == d & 0xFF && high == d >> 8
    ensures Shift8(Shift8(d ^ low) ^ high) == 0
  {}
}
