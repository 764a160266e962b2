/** The Motorola MC146818 CMOS / real-time clock of cmos.h / cmos.cpp.

    Port 0x70 selects a register (the address cursor) and port 0x71 reads
    or writes it. The clock registers are read from the host's local time,
    which is the parameter `t` here (the source calls `time` and
    `localtime`). Values are BCD-encoded unless status register B selects
    binary mode, and hours use bit 7 as the PM flag in 12-hour mode.

    The value-level model comes first: `CmosState` and one function per
    operation. The class `CMOS` at the end has the source's fields and is
    proved to follow those functions. */
module Cmos {
  import opened Machine
  import opened IoDevice

  const CMOS_BASE_PORT: uint32 := 0x70
  const CMOS_FD_TYPE: uint8 := 0x00
  const CMOS_HD_TYPE: uint8 := 0x00
  const CMOS_EQUIPMENT: uint8 := 0x01
  const CMOS_BOOT_ORDER: bv16 := 0x123

  /** The fields of `struct tm` that the clock registers read. */
  datatype Tm = Tm(sec: int, min: int, hour: int, mday: int, mon: int, year: int, wday: int)

  /** The registers of class CMOS. */
  datatype CmosState = CmosState(
    address: uint8,
    periodicInterruptEnabled: bool,
    alarmInterruptEnabled: bool,
    updateInterruptEnabled: bool,
    isPeriodicInterrupt: bool,   // the three pending flags
    isAlarmInterrupt: bool,
    isUpdateInterrupt: bool,
    isBinaryMode: bool,
    is24hMode: bool,
    alarmHour: uint8,
    alarmMinute: uint8,
    alarmSecond: uint8,
    periodicInterruptDivider: uint8)

  /** `CMOS()`: binary 24-hour mode, nothing enabled or pending, divider 6. */
  const INITIAL: CmosState :=
    CmosState(0, false, false, false, false, false, false, true, true, 0, 0, 0, 6)

  /** C++'s conversion of an `int` to `uint8_t`: reduction modulo 256. */
  function TruncUint8(x: int): (r: uint8)
    ensures 0 <= x < 256 ==> r == ToUint8(x)
  {
    ToUint8(x % 256)
  }

  // ---------------------------------------------------------------------
  // BCD conversion

  /** `encode`: the identity in binary mode, otherwise the two decimal
      digits of `value` as nibbles (only meaningful below 100). */
  function Encode(isBinaryMode: bool, value: uint8): uint8 {
    if isBinaryMode then value
    else (((value / 10) & 0xf) << 4) | ((value % 10) & 0xf)
  }

  /** `decode`: the identity in binary mode, otherwise ten times the high
      nibble plus the low nibble. */
  function Decode(isBinaryMode: bool, value: uint8): uint8 {
    if isBinaryMode then value
    else (((value & 0xf0) >> 4) * 10) + (value & 0xf)
  }

  /** `encode_hour` as written: in 12-hour mode hours 13..23 become
      `encode((value % 12) | 0x80)`, which BCD-encodes the PM flag along
      with the hour. */
  function EncodeHourAsWritten(isBinaryMode: bool, is24hMode: bool, value: uint8): uint8 {
    if is24hMode || value <= 12 then Encode(isBinaryMode, value)
    else Encode(isBinaryMode, (value % 12) | 0x80)
  }

  /** `decode_hour` as written: a PM hour becomes `decode((value & ~0x80) + 12)`,
      which adds 12 to the BCD digits before decoding them. */
  function DecodeHourAsWritten(isBinaryMode: bool, is24hMode: bool, value: uint8): uint8 {
    if is24hMode || value & 0x80 == 0 then Decode(isBinaryMode, value)
    else Decode(isBinaryMode, (value & 0x7f) + 12)
  }

  /** `encode_hour` as intended: the PM flag is set on the encoded hour. */
  function EncodeHour(isBinaryMode: bool, is24hMode: bool, value: uint8): uint8 {
    if is24hMode || value <= 12 then Encode(isBinaryMode, value)
    else Encode(isBinaryMode, value % 12) | 0x80
  }

  /** `decode_hour` as intended: 12 is added to the decoded hour. */
  function DecodeHour(isBinaryMode: bool, is24hMode: bool, value: uint8): uint8 {
    if is24hMode || value & 0x80 == 0 then Decode(isBinaryMode, value)
    else Decode(isBinaryMode, value & 0x7f) + 12
  }

  // ---------------------------------------------------------------------
  // Register access

  /** `write_address`: selects the register the data port accesses. */
  function AddressWrite(s: CmosState, value: uint8): CmosState {
    s.(address := value)
  }

  /** `write_data`: the alarm registers store the decoded value, status
      register A the rate divider (low nibble), status register B the three
      interrupt enables (bits 6..4) and the binary (bit 2) and 24-hour
      (bit 1) modes. Every other register ignores writes. */
  function DataWrite(s: CmosState, value: uint8): CmosState {
    match s.address
    case 0x01 => s.(alarmSecond := Decode(s.isBinaryMode, value))
    case 0x03 => s.(alarmMinute := Decode(s.isBinaryMode, value))
    case 0x05 => s.(alarmHour := DecodeHour(s.isBinaryMode, s.is24hMode, value))
    case 0x0a => s.(periodicInterruptDivider := value & 0xf)
    case 0x0b =>
      s.(periodicInterruptEnabled := value & (0x40) > 0,
         alarmInterruptEnabled := value & (0x20) > 0,
         updateInterruptEnabled := value & (0x10) > 0,
         isBinaryMode := value & (0x04) > 0,
         is24hMode := value & (0x02) > 0)
    case _ => s
  }

  /** Status register B as read back from the three interrupt enables and
      the two mode flags, in the bits `write_data` takes them from. */
  function StatusB(periodic: bool, alarm: bool, update: bool, binary: bool, is24h: bool): uint8 {
    (if periodic then 0x40 else 0) |
    (if alarm then 0x20 else 0) |
    (if update then 0x10 else 0) |
    (if binary then 0x04 else 0) |
    (if is24h then 0x02 else 0)
  }

  /** Status register C from the three enables and the three pending
      flags: IRQF (bit 7) is set when an enabled interrupt is pending; each
      clear pending flag reads as bit 0 set (the source's `: 1`). */
  function StatusC(periodicEnabled: bool, alarmEnabled: bool, updateEnabled: bool,
                   periodic: bool, alarm: bool, update: bool): uint8 {
    var irqf := (periodicEnabled && periodic) || (alarmEnabled && alarm) || (updateEnabled && update);
    (if irqf then 0x80 else 0) |
    (if periodic then 0x40 else 1) |
    (if alarm then 0x20 else 1) |
    (if update then 0x10 else 1)
  }

  /** `read_data`: the byte the selected register reads, with the local
      time `t`. `value` is the byte behind the caller's pointer, returned
      unchanged for registers the switch does not list. */
  function DataRead(s: CmosState, t: Tm, value: uint8): uint8 {
    var bin := s.isBinaryMode;
    match s.address
    case 0x00 => Encode(bin, TruncUint8(t.sec))
    case 0x01 => Encode(bin, s.alarmSecond)
    case 0x02 => Encode(bin, TruncUint8(t.min))
    case 0x03 => Encode(bin, s.alarmMinute)
    case 0x04 => EncodeHour(bin, s.is24hMode, TruncUint8(t.hour))
    case 0x05 => EncodeHour(bin, s.is24hMode, s.alarmHour)
    case 0x06 => Encode(bin, TruncUint8(t.wday))
    case 0x07 => Encode(bin, TruncUint8(t.mday))
    case 0x08 => Encode(bin, TruncUint8(t.mon + 1))
    case 0x09 => Encode(bin, TruncUint8(CRem(t.year + 1900, 100)))
    case 0x0a => 0x20 | s.periodicInterruptDivider
    case 0x0b =>
      StatusB(s.periodicInterruptEnabled, s.alarmInterruptEnabled, s.updateInterruptEnabled,
              s.isBinaryMode, s.is24hMode)
    case 0x0c =>
      StatusC(s.periodicInterruptEnabled, s.alarmInterruptEnabled, s.updateInterruptEnabled,
              s.isPeriodicInterrupt, s.isAlarmInterrupt, s.isUpdateInterrupt)
    case 0x0d => 0x80
    case 0x0e => 0
    case 0x0f => 0
    case 0x10 => CMOS_FD_TYPE
    case 0x12 => CMOS_HD_TYPE
    case 0x14 => CMOS_EQUIPMENT
    case 0x32 => Encode(bin, TruncUint8(CDiv(t.year + 1900, 100)))
    case 0x38 => (((CMOS_BOOT_ORDER >> 4) & 0xf0) | 1) as uint8
    case 0x3d => (CMOS_BOOT_ORDER & 0xff) as uint8
    case 0x5b => 0
    case 0x5c => 0
    case 0x5d => 0
    case _ => value
  }

  /** `write`: single-byte writes to port 0x70 select a register, to port
      0x71 write it; anything else is ignored. */
  function PortWrite(s: CmosState, port: uint32, value: uint32, size: uint8): CmosState {
    var offset := PortOffset(port, CMOS_BASE_PORT);
    if size != SINGLE_BYTE then s
    else if offset == 0 then AddressWrite(s, DataByte(value))
    else if offset == 1 then DataWrite(s, DataByte(value))
    else s
  }

  /** `read`: a single-byte read of port 0x71 stores the selected register
      into the low byte of the caller's word; port 0x70 is write-only. */
  function PortRead(s: CmosState, port: uint32, value: uint32, size: uint8, t: Tm): uint32 {
    var offset := PortOffset(port, CMOS_BASE_PORT);
    if size != SINGLE_BYTE || offset != 1 then value
    else WithDataByte(value, DataRead(s, t, DataByte(value)))
  }

  /** The CMOS object of cmos.cpp. */
  class CMOS {
    var address: uint8
    var periodicInterruptEnabled: bool
    var alarmInterruptEnabled: bool
    var updateInterruptEnabled: bool
    var isPeriodicInterrupt: bool
    var isAlarmInterrupt: bool
    var isUpdateInterrupt: bool
    var isBinaryMode: bool
    var is24hMode: bool
    var alarmHour: uint8
    var alarmMinute: uint8
    var alarmSecond: uint8
    var periodicInterruptDivider: uint8

    /** The value this object stands for. */
    ghost function State(): CmosState
      reads this
    {
      CmosState(address, periodicInterruptEnabled, alarmInterruptEnabled, updateInterruptEnabled,
                isPeriodicInterrupt, isAlarmInterrupt, isUpdateInterrupt, isBinaryMode, is24hMode,
                alarmHour, alarmMinute, alarmSecond, periodicInterruptDivider)
    }

    /** `CMOS()`. */
    constructor ()
      ensures State() == INITIAL
    {
      address := 0;
      periodicInterruptEnabled := false;
      alarmInterruptEnabled := false;
      updateInterruptEnabled := false;
      isPeriodicInterrupt := false;
      isAlarmInterrupt := false;
      isUpdateInterrupt := false;
      isBinaryMode := true;
      is24hMode := true;
      alarmHour := 0;
      alarmMinute := 0;
      alarmSecond := 0;
      periodicInterruptDivider := 6;
    }

    /** `write_address`. */
    method WriteAddress(value: uint8)
      modifies this
      ensures State() == AddressWrite(old(State()), value)
    {
      address := value;
    }

    /** `write_data`. */
    method WriteData(value: uint8)
      modifies this
      ensures State() == DataWrite(old(State()), value)
    {
      match address {
        case 0x01 => WriteAlarm(value);
        case 0x03 => WriteAlarm(value);
        case 0x05 => WriteAlarm(value);
        case 0x0a => WriteStatusA(value);
        case 0x0b => WriteStatusB(value);
        case _ =>
      }
    }

    /** The alarm cases of `write_data`: the written byte is decoded in the
        current mode. */
    method WriteAlarm(value: uint8)
      requires address == 0x01 || address == 0x03 || address == 0x05
      modifies this
      ensures State() == DataWrite(old(State()), value)
    {
      if address == 0x01 {
        alarmSecond := Decode(isBinaryMode, value);
      } else if address == 0x03 {
        alarmMinute := Decode(isBinaryMode, value);
      } else {
        alarmHour := DecodeHour(isBinaryMode, is24hMode, value);
      }
    }

    /** Status register A: the rate divider. */
    method WriteStatusA(value: uint8)
      requires address == 0x0a
      modifies this
      ensures State() == DataWrite(old(State()), value)
    {
      periodicInterruptDivider := value & 0xf;
    }

    /** Status register B: the interrupt enables and the modes. */
    method WriteStatusB(value: uint8)
      requires address == 0x0b
      modifies this
      ensures State() == DataWrite(old(State()), value)
    {
      periodicInterruptEnabled := value & 0x40 > 0;
      alarmInterruptEnabled := value & 0x20 > 0;
      updateInterruptEnabled := value & 0x10 > 0;
      isBinaryMode := value & 0x04 > 0;
      is24hMode := value & 0x02 > 0;
    }

    /** `read_data`, with the local time `t`: `value` is the byte behind the
        caller's pointer and the result that byte after the call. Nothing
        of the device changes. */
    method ReadData(t: Tm, value: uint8) returns (r: uint8)
      ensures r == DataRead(State(), t, value)
    {
      // The registers, read once.
      var s := CmosState(address, periodicInterruptEnabled, alarmInterruptEnabled, updateInterruptEnabled,
                         isPeriodicInterrupt, isAlarmInterrupt, isUpdateInterrupt, isBinaryMode, is24hMode,
                         alarmHour, alarmMinute, alarmSecond, periodicInterruptDivider);
      r := value;
      match s.address {
        case 0x00 => r := Encode(s.isBinaryMode, TruncUint8(t.sec));
        case 0x01 => r := Encode(s.isBinaryMode, s.alarmSecond);
        case 0x02 => r := Encode(s.isBinaryMode, TruncUint8(t.min));
        case 0x03 => r := Encode(s.isBinaryMode, s.alarmMinute);
        case 0x04 => r := EncodeHour(s.isBinaryMode, s.is24hMode, TruncUint8(t.hour));
        case 0x05 => r := EncodeHour(s.isBinaryMode, s.is24hMode, s.alarmHour);
        case 0x06 => r := Encode(s.isBinaryMode, TruncUint8(t.wday));
        case 0x07 => r := Encode(s.isBinaryMode, TruncUint8(t.mday));
        case 0x08 => r := Encode(s.isBinaryMode, TruncUint8(t.mon + 1));
        case 0x09 => r := Encode(s.isBinaryMode, TruncUint8(CRem(t.year + 1900, 100)));
        case 0x0a => r := 0x20 | s.periodicInterruptDivider;
        case 0x0b =>
          r := StatusB(s.periodicInterruptEnabled, s.alarmInterruptEnabled, s.updateInterruptEnabled,
                       s.isBinaryMode, s.is24hMode);
        case 0x0c =>
          r := StatusC(s.periodicInterruptEnabled, s.alarmInterruptEnabled, s.updateInterruptEnabled,
                       s.isPeriodicInterrupt, s.isAlarmInterrupt, s.isUpdateInterrupt);
        case 0x0d => r := 0x80;
        case 0x0e => r := 0;
        case 0x0f => r := 0;
        case 0x10 => r := CMOS_FD_TYPE;
        case 0x12 => r := CMOS_HD_TYPE;
        case 0x14 => r := CMOS_EQUIPMENT;
        case 0x32 => r := Encode(s.isBinaryMode, TruncUint8(CDiv(t.year + 1900, 100)));
        case 0x38 => r := (((CMOS_BOOT_ORDER >> 4) & 0xf0) | 1) as uint8;
        case 0x3d => r := (CMOS_BOOT_ORDER & 0xff) as uint8;
        case 0x5b => r := 0;
        case 0x5c => r := 0;
        case 0x5d => r := 0;
        case _ =>
      }
    }

    /** `write`: the port-I/O entry point. */
    method Write(port: uint32, value: uint32, size: uint8)
      modifies this
      ensures State() == PortWrite(old(State()), port, value, size)
    {
      if size != SINGLE_BYTE {
        return;  // "CMOS only supports single-byte R/W"
      }
      var offset := PortOffset(port, CMOS_BASE_PORT);
      if offset == 0 {
        WriteAddress(DataByte(value));
      } else if offset == 1 {
        WriteData(DataByte(value));
      }
    }

    /** `read`: the port-I/O entry point; `value` is the caller's word before
        the call and `r` the word after it. */
    method Read(port: uint32, value: uint32, size: uint8, t: Tm) returns (r: uint32)
      ensures r == PortRead(State(), port, value, size, t)
    {
      r := value;
      if size != SINGLE_BYTE {
        return;  // "CMOS only supports single-byte R/W"
      }
      var offset := PortOffset(port, CMOS_BASE_PORT);
      if offset == 1 {
        var b := ReadData(t, DataByte(value));
        r := WithDataByte(value, b);
      }
      // Offset 0: "Address register is write only".
    }
  }
}
