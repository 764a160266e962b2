/** Properties of the CMOS / real-time clock model: the BCD and hour
    encodings, what reading back a written register gives, the registers
    whose value does not depend on the caller's byte, and the flags no
    operation changes. */
module CmosProps {
  import opened Machine
  import opened IoDevice
  import opened Cmos

  // ---------------------------------------------------------------------
  // BCD

  /** A byte whose two nibbles are decimal digits. */
  predicate IsBcd(v: uint8) {
    v & 0xf <= 9 && v >> 4 <= 9
  }

  /** Binary mode stores values as they are. */
  lemma BinaryModeIsIdentity(v: uint8)
    ensures Encode(true, v) == v && Decode(true, v) == v
    ensures EncodeHour(true, true, v) == v && DecodeHour(true, true, v) == v
  {
  }

  /** Every value below 100 encodes to a BCD byte that decodes back to it. */
  lemma BcdRoundTrip(v: uint8)
    requires v < 100
    ensures IsBcd(Encode(false, v))
    ensures Decode(false, Encode(false, v)) == v
  {
  }

  /** Every BCD byte decodes to a value below 100 that encodes back to it. */
  lemma BcdDecodeRoundTrip(v: uint8)
    requires IsBcd(v)
    ensures Decode(false, v) < 100
    ensures Encode(false, Decode(false, v)) == v
  {
  }

  /** In either mode, a value the mode can hold survives encoding. */
  lemma EncodeRoundTrip(isBinaryMode: bool, v: uint8)
    requires isBinaryMode || v < 100
    ensures Decode(isBinaryMode, Encode(isBinaryMode, v)) == v
  {
    if !isBinaryMode {
      BcdRoundTrip(v);
    }
  }

  // ---------------------------------------------------------------------
  // Hours

  /** Every hour of the day survives `encode_hour` and `decode_hour` in
      all four modes. In 12-hour mode hours after noon carry bit 7. */
  lemma {:induction false} HourRoundTrip(isBinaryMode: bool, is24hMode: bool, h: uint8)
    requires h < 24
    ensures DecodeHour(isBinaryMode, is24hMode, EncodeHour(isBinaryMode, is24hMode, h)) == h
    ensures !is24hMode ==> (EncodeHour(isBinaryMode, is24hMode, h) & 0x80 != 0 <==> h > 12)
  {
    if is24hMode || h <= 12 {
      EncodeRoundTrip(isBinaryMode, h);
      if !is24hMode && !isBinaryMode {
        BcdRoundTrip(h);
      }
    } else if isBinaryMode {
    } else {
      BcdRoundTrip(h % 12);
    }
  }

  /** In 12-hour mode the encoded hours after noon are the morning hours
      with bit 7 set. `encode_hour` as written does this in binary mode
      only. */
  lemma PmHourIsFlagged(isBinaryMode: bool, h: uint8)
    requires 12 < h < 24
    ensures EncodeHour(isBinaryMode, false, h) == EncodeHour(isBinaryMode, false, h - 12) | 0x80
    ensures isBinaryMode ==>
      EncodeHourAsWritten(isBinaryMode, false, h) == EncodeHourAsWritten(isBinaryMode, false, h - 12) | 0x80
  {
  }

  /** In binary 12-hour mode hours 0 to 12 are stored unchanged and hours
      13 to 23 as `h - 12` with bit 7 set, both as written and as
      intended; `decode_hour` as written reads them back. */
  lemma BinaryTwelveHourMode(h: uint8)
    requires h < 24
    ensures h <= 12 ==> EncodeHour(true, false, h) == h && EncodeHourAsWritten(true, false, h) == h
    ensures 12 < h ==> EncodeHourAsWritten(true, false, h) == (h - 12) | 0x80
    ensures 12 < h ==> EncodeHour(true, false, h) == (h - 12) | 0x80
    ensures DecodeHourAsWritten(true, false, EncodeHourAsWritten(true, false, h)) == h
  {
  }

  /** The hour functions as written and as intended agree in binary mode,
      in 24-hour mode, and on hours that need no PM flag. */
  lemma HourAsWrittenAgrees(isBinaryMode: bool, is24hMode: bool, v: uint8)
    ensures isBinaryMode || is24hMode || v <= 12 ==>
      EncodeHourAsWritten(isBinaryMode, is24hMode, v) == EncodeHour(isBinaryMode, is24hMode, v)
    ensures isBinaryMode || is24hMode || v & 0x80 == 0 ==>
      DecodeHourAsWritten(isBinaryMode, is24hMode, v) == DecodeHour(isBinaryMode, is24hMode, v)
  {
  }

  /** `encode_hour` as written turns 1 PM into 0xc9 in BCD 12-hour mode
      instead of 0x81, and `decode_hour` as written reads 0xc9 as 55. */
  lemma EncodeHourAsWrittenMisencodesPm()
    ensures EncodeHourAsWritten(false, false, 13) == 0xc9
    ensures EncodeHour(false, false, 13) == 0x81
    ensures DecodeHourAsWritten(false, false, EncodeHourAsWritten(false, false, 13)) == 55
  {
  }

  /** `decode_hour` as written reads 4 PM (0x84) as 10 and 8 PM (0x88) as
      14 in BCD 12-hour mode, where 16 and 20 are meant. */
  lemma DecodeHourAsWrittenMisreadsPm()
    ensures DecodeHourAsWritten(false, false, 0x84) == 10
    ensures DecodeHour(false, false, 0x84) == 16
    ensures DecodeHourAsWritten(false, false, 0x88) == 14
    ensures DecodeHour(false, false, 0x88) == 20
  {
  }

  // ---------------------------------------------------------------------
  // Registers

  /** The registers `read_data` lists. */
  const LISTED: set<uint8> :=
    {0x00, 0x01, 0x02, 0x03, 0x04, 0x05, 0x06, 0x07, 0x08, 0x09, 0x0a, 0x0b, 0x0c,
     0x0d, 0x0e, 0x0f, 0x10, 0x12, 0x14, 0x32, 0x38, 0x3d, 0x5b, 0x5c, 0x5d}

  /** A listed register reads the same whatever the caller's byte was; any
      other register leaves that byte as it was. */
  lemma DataReadListed(s: CmosState, t: Tm, v1: uint8, v2: uint8)
    ensures s.address in LISTED ==> DataRead(s, t, v1) == DataRead(s, t, v2)
    ensures s.address !in LISTED ==> DataRead(s, t, v1) == v1
  {
  }

  /** The fixed registers: status D reads "valid RAM" (bit 7), the floppy
      and hard disk types 0, the equipment byte 1, and registers 0x0e,
      0x0f, 0x5b, 0x5c and 0x5d read 0. */
  lemma ConstantRegisters(s: CmosState, t: Tm, v: uint8)
    ensures DataRead(s.(address := 0x0d), t, v) == 0x80
    ensures DataRead(s.(address := 0x0e), t, v) == 0
    ensures DataRead(s.(address := 0x0f), t, v) == 0
    ensures DataRead(s.(address := 0x5b), t, v) == 0
    ensures DataRead(s.(address := 0x5c), t, v) == 0
    ensures DataRead(s.(address := 0x5d), t, v) == 0
    ensures DataRead(s.(address := 0x10), t, v) == CMOS_FD_TYPE == 0x00
    ensures DataRead(s.(address := 0x12), t, v) == CMOS_HD_TYPE == 0x00
    ensures DataRead(s.(address := 0x14), t, v) == CMOS_EQUIPMENT == 0x01
  {
    ZeroRegister(s, t, v, 0x0e);
    ZeroRegister(s, t, v, 0x0f);
    ZeroRegister(s, t, v, 0x5b);
    ZeroRegister(s, t, v, 0x5c);
    ZeroRegister(s, t, v, 0x5d);
  }

  /** One of the registers that read as constant 0. */
  lemma ZeroRegister(s: CmosState, t: Tm, v: uint8, a: uint8)
    requires a == 0x0e || a == 0x0f || a == 0x5b || a == 0x5c || a == 0x5d
    ensures DataRead(s.(address := a), t, v) == 0
  {
    if a == 0x0e {
    } else if a == 0x0f {
    } else if a == 0x5b {
    } else if a == 0x5c {
    } else {
    }
  }

  /** The boot-order registers: 0x3d holds the low byte of 0x123 (first and
      second device) and 0x38 the third device in its high nibble with
      bit 0 set, that is 0x23 and 0x11. */
  lemma BootOrderRegisters(s: CmosState, t: Tm, v: uint8)
    ensures DataRead(s.(address := 0x38), t, v) == 0x11
    ensures DataRead(s.(address := 0x3d), t, v) == 0x23
  {
  }

  /** Writing a register `write_data` does not list changes nothing, and
      no write changes the address cursor or the pending flags. */
  lemma DataWriteFrame(s: CmosState, v: uint8)
    ensures s.address !in {0x01, 0x03, 0x05, 0x0a, 0x0b} ==> DataWrite(s, v) == s
    ensures DataWrite(s, v).address == s.address
    ensures DataWrite(s, v).isPeriodicInterrupt == s.isPeriodicInterrupt
    ensures DataWrite(s, v).isAlarmInterrupt == s.isAlarmInterrupt
    ensures DataWrite(s, v).isUpdateInterrupt == s.isUpdateInterrupt
  {
  }

  /** After a write to status register A, it reads back the rate divider
      (the written low nibble) with the fixed divider-chain bits 0x20. */
  lemma StatusARoundTrip(s: CmosState, t: Tm, v: uint8, w: uint8)
    requires s.address == 0x0a
    ensures DataRead(DataWrite(s, v), t, w) == 0x20 | (v & 0x0f)
  {
  }

  /** After a write to status register B, it reads back the five bits the
      model keeps (6, 5, 4, 2, 1) and zero elsewhere. */
  lemma StatusBRoundTrip(s: CmosState, t: Tm, v: uint8, w: uint8)
    requires s.address == 0x0b
    ensures DataRead(DataWrite(s, v), t, w) == v & 0x76
  {
  }

  /** Writing status register B sets the periodic, alarm and update
      interrupt enables from bits 6, 5 and 4, and switches binary and
      24-hour mode by bits 2 and 1. */
  lemma StatusBSelectsModes(s: CmosState, v: uint8)
    requires s.address == 0x0b
    ensures DataWrite(s, v).periodicInterruptEnabled <==> v & 0x40 != 0
    ensures DataWrite(s, v).alarmInterruptEnabled <==> v & 0x20 != 0
    ensures DataWrite(s, v).updateInterruptEnabled <==> v & 0x10 != 0
    ensures DataWrite(s, v).isBinaryMode <==> v & 0x04 != 0
    ensures DataWrite(s, v).is24hMode <==> v & 0x02 != 0
  {
  }

  /** The alarm second and minute registers read back what was written,
      for any byte in binary mode and for any BCD byte in BCD mode. */
  lemma AlarmRoundTrip(s: CmosState, t: Tm, v: uint8, w: uint8)
    requires s.address == 0x01 || s.address == 0x03
    requires s.isBinaryMode || IsBcd(v)
    ensures DataRead(DataWrite(s, v), t, w) == v
  {
    if !s.isBinaryMode {
      BcdDecodeRoundTrip(v);
    }
  }

  /** The alarm hour register keeps the hour `h`, written in the current
      encoding, and reads it back in that encoding. With the hour
      conversions as written this holds in binary or 24-hour mode. */
  lemma AlarmHourRoundTrip(s: CmosState, t: Tm, h: uint8, w: uint8)
    requires s.address == 0x05
    requires h < 24
    ensures DataWrite(s, EncodeHour(s.isBinaryMode, s.is24hMode, h)).alarmHour == h
    ensures DataRead(DataWrite(s, EncodeHour(s.isBinaryMode, s.is24hMode, h)), t, w)
         == EncodeHour(s.isBinaryMode, s.is24hMode, h)
    ensures s.isBinaryMode || s.is24hMode ==>
      DecodeHourAsWritten(s.isBinaryMode, s.is24hMode,
        EncodeHourAsWritten(s.isBinaryMode, s.is24hMode, h)) == h
  {
    HourRoundTrip(s.isBinaryMode, s.is24hMode, h);
    var e := EncodeHour(s.isBinaryMode, s.is24hMode, h);
    HourAsWrittenAgrees(s.isBinaryMode, s.is24hMode, h);
    HourAsWrittenAgrees(s.isBinaryMode, s.is24hMode, e);
  }

  /** Status register C: bit 7 (IRQF) is set exactly when an enabled
      interrupt is pending, bits 6..4 are the pending flags, and bit 0 is
      set whenever one of the flags is clear. */
  lemma StatusCBits(s: CmosState, t: Tm, w: uint8)
    requires s.address == 0x0c
    ensures var c := DataRead(s, t, w);
      (c & 0x80 != 0 <==>
         (s.periodicInterruptEnabled && s.isPeriodicInterrupt) ||
         (s.alarmInterruptEnabled && s.isAlarmInterrupt) ||
         (s.updateInterruptEnabled && s.isUpdateInterrupt)) &&
      (c & 0x40 != 0 <==> s.isPeriodicInterrupt) &&
      (c & 0x20 != 0 <==> s.isAlarmInterrupt) &&
      (c & 0x10 != 0 <==> s.isUpdateInterrupt) &&
      (c & 0x01 != 0 <==> !(s.isPeriodicInterrupt && s.isAlarmInterrupt && s.isUpdateInterrupt))
  {
  }

  /** No interrupt is ever pending: the flags start clear and no port
      access sets them. */
  predicate NoPending(s: CmosState) {
    !s.isPeriodicInterrupt && !s.isAlarmInterrupt && !s.isUpdateInterrupt
  }

  lemma {:induction false} PortWriteKeepsNoPending(s: CmosState, port: uint32, value: uint32, size: uint8)
    requires NoPending(s)
    ensures NoPending(PortWrite(s, port, value, size))
  {
    DataWriteFrame(s, DataByte(value));
  }

  /** Hence status register C always reads 0x01 on a device that started
      in its initial state. */
  lemma StatusCWithoutPending(s: CmosState, t: Tm, w: uint8)
    requires NoPending(s)
    requires s.address == 0x0c
    ensures DataRead(s, t, w) == 0x01
  {
  }

  lemma InitialRegisters(t: Tm, w: uint8)
    ensures NoPending(INITIAL)
    ensures DataRead(INITIAL.(address := 0x0a), t, w) == 0x26
    ensures DataRead(INITIAL.(address := 0x0b), t, w) == 0x06
  {
  }

  // ---------------------------------------------------------------------
  // The clock

  /** A `struct tm` as `localtime` fills it (sixty-one seconds allow a leap
      second); the year is counted from 1900. */
  predicate ValidTm(t: Tm) {
    0 <= t.sec <= 60 && 0 <= t.min < 60 && 0 <= t.hour < 24 &&
    1 <= t.mday <= 31 && 0 <= t.mon < 12 && 0 <= t.wday < 7 &&
    0 <= t.year + 1900 < 10000
  }

  /** A clock field the current mode can hold is read back through its
      register's encoding. */
  lemma ClockField(isBinaryMode: bool, x: int)
    requires 0 <= x < 100
    ensures Decode(isBinaryMode, Encode(isBinaryMode, TruncUint8(x))) == ToUint8(x)
  {
    assert ToUint8(x) < 100;
    EncodeRoundTrip(isBinaryMode, ToUint8(x));
  }

  /** For a valid time, the seconds, minutes and hours registers decode,
      in the current mode, to the time of day `t` describes. In binary or
      24-hour mode the hours register is also what `encode_hour` as
      written gives, and `decode_hour` as written reads it back. */
  lemma {:induction false} TimeRegisters(s: CmosState, t: Tm, w: uint8)
    requires ValidTm(t)
    ensures Decode(s.isBinaryMode, DataRead(s.(address := 0x00), t, w)) == ToUint8(t.sec)
    ensures Decode(s.isBinaryMode, DataRead(s.(address := 0x02), t, w)) == ToUint8(t.min)
    ensures DecodeHour(s.isBinaryMode, s.is24hMode, DataRead(s.(address := 0x04), t, w)) == ToUint8(t.hour)
    ensures s.isBinaryMode || s.is24hMode ==>
      DataRead(s.(address := 0x04), t, w) == EncodeHourAsWritten(s.isBinaryMode, s.is24hMode, ToUint8(t.hour)) &&
      DecodeHourAsWritten(s.isBinaryMode, s.is24hMode, DataRead(s.(address := 0x04), t, w)) == ToUint8(t.hour)
  {
    ClockField(s.isBinaryMode, t.sec);
    ClockField(s.isBinaryMode, t.min);
    var h := ToUint8(t.hour);
    HourRoundTrip(s.isBinaryMode, s.is24hMode, h);
    HourAsWrittenAgrees(s.isBinaryMode, s.is24hMode, h);
    HourAsWrittenAgrees(s.isBinaryMode, s.is24hMode, EncodeHour(s.isBinaryMode, s.is24hMode, h));
  }

  /** For a valid time, the weekday, day-of-month and month registers decode
      to the date `t` describes, the month counted from 1. */
  lemma {:induction false} DateRegisters(s: CmosState, t: Tm, w: uint8)
    requires ValidTm(t)
    ensures Decode(s.isBinaryMode, DataRead(s.(address := 0x06), t, w)) == ToUint8(t.wday)
    ensures Decode(s.isBinaryMode, DataRead(s.(address := 0x07), t, w)) == ToUint8(t.mday)
    ensures Decode(s.isBinaryMode, DataRead(s.(address := 0x08), t, w)) == ToUint8(t.mon + 1)
  {
    ClockField(s.isBinaryMode, t.wday);
    ClockField(s.isBinaryMode, t.mday);
    ClockField(s.isBinaryMode, t.mon + 1);
  }

  /** For a valid time, the year register (0x09) and the century register
      (0x32) decode to the two halves of the four-digit year. */
  lemma {:induction false} YearRegisters(s: CmosState, t: Tm, w: uint8)
    requires ValidTm(t)
    ensures Decode(s.isBinaryMode, DataRead(s.(address := 0x09), t, w)) == ToUint8((t.year + 1900) % 100)
    ensures Decode(s.isBinaryMode, DataRead(s.(address := 0x32), t, w)) == ToUint8((t.year + 1900) / 100)
  {
    var y := t.year + 1900;
    assert CRem(y, 100) == y % 100 && CDiv(y, 100) == y / 100;
    ClockField(s.isBinaryMode, y % 100);
    ClockField(s.isBinaryMode, y / 100);
  }

  // ---------------------------------------------------------------------
  // Ports

  /** `write`: single-byte writes to port 0x70 select a register and to
      port 0x71 write it; other sizes and ports change nothing. */
  lemma PortWriteEffect(s: CmosState, port: uint32, value: uint32, size: uint8)
    ensures var t := PortWrite(s, port, value, size);
      && (size == 1 && port == 0x70 ==> t == AddressWrite(s, DataByte(value)))
      && (size == 1 && port == 0x71 ==> t == DataWrite(s, DataByte(value)))
      && (size != 1 || (port != 0x70 && port != 0x71) ==> t == s)
  {
  }

  /** Only single-byte reads of port 0x71 return data; they replace the
      low byte of the caller's word and keep the rest. */
  lemma PortReadEffect(s: CmosState, port: uint32, value: uint32, size: uint8, t: Tm)
    ensures size != SINGLE_BYTE || PortOffset(port, CMOS_BASE_PORT) != 1 ==>
      PortRead(s, port, value, size, t) == value
    ensures size == SINGLE_BYTE && PortOffset(port, CMOS_BASE_PORT) == 1 ==>
      DataByte(PortRead(s, port, value, size, t)) == DataRead(s, t, DataByte(value)) &&
      PortRead(s, port, value, size, t) & 0xffff_ff00 == value & 0xffff_ff00
  {
  }

  /** Selecting a register through port 0x70 and reading port 0x71 yields
      that register. Writes of any other width are ignored. */
  lemma SelectThenRead(s: CmosState, reg: uint8, value: uint32, size: uint8, t: Tm)
    ensures PortRead(PortWrite(s, 0x70, reg as uint32, SINGLE_BYTE), 0x71, value, SINGLE_BYTE, t)
         == WithDataByte(value, DataRead(s.(address := reg), t, DataByte(value)))
    ensures size != SINGLE_BYTE ==> PortWrite(s, 0x70, reg as uint32, size) == s
  {
  }
}
