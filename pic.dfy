/** The Intel 8259A programmable interrupt controller of pic.h / pic.cpp.

    Port 0x20 takes commands (ICW1, OCW2, OCW3) and reads the request or
    in-service register; port 0x21 takes the data bytes of the
    initialisation sequence (ICW2, ICW3, ICW4) and, once that is done, the
    interrupt mask (OCW1), and reads the mask back.

    pic.cpp does not compile as written. Where it does not compile or is
    evidently wrong, this model follows the evident intent, as the comments
    at each place say. Where it does not compile:
    - the request register is declared `iir` in pic.h but used as `irr`;
      it is `irr` here;
    - `cascading_enabled` is not declared; the flag ICW1 sets is the
      `icw3_enabled` that `write_data` tests;
    - `connect_io_device` is defined as a free function; it is a member
      here;
    - the declarations of `selected_irq` under the `case` labels of `ocw2`
      are ill-formed; each case has its own;
    - `ocw2` is called by `write_command` and defined as `PIC::ocw2`, but
      class `PIC` in pic.h does not declare it; it is the member `Ocw2`
      here;
    - `poll_irq` is declared `void` in pic.h, but it overrides the
      `bool poll_irq()` of `IODevice` (io_device.h); it is the method
      `PollIrq` without a result here, since the controller's `poll_irq`
      returns nothing.
    Where it compiles but is evidently wrong:
    - the constructor leaves `aeoi_enabled` and `rotation_enabled`
      uninitialised; they start false;
    - the tests `value & M == K` parse as `value & (M == K)`; they are read
      as `(value & M) == K`, with the masks of the code.

    The value model (`PicState` and one function per operation) comes
    first; the class `PIC` at the end has the source's fields and is proved
    to follow those functions. */
module Pic {
  import opened Machine
  import opened IoDevice

  const PIC_BASE_PORT: uint32 := 0x20
  const PIC_IRQ_COUNT: int := 8

  /** `pic_status_t`: which initialisation word the data port expects. */
  datatype PicStatus = Idle | Icw2 | Icw3 | Icw4

  /** The registers of class PIC. `devices[n]` says whether a device is
      connected to line `n` (the pointer is not NULL). */
  datatype PicState = PicState(
    icw3Enabled: bool,
    icw4Enabled: bool,
    aeoiEnabled: bool,
    rotationEnabled: bool,
    dataIsIrr: bool,
    interruptVectorAddress: uint8,
    status: PicStatus,
    topPriorityIrq: uint8,
    irr: uint8,
    imr: uint8,
    isr: uint8,
    devices: seq<bool>)
  {
    ghost predicate Valid() {
      |devices| == PIC_IRQ_COUNT
    }
  }

  /** `PIC()`: nothing requested, masked or in service, the data port reads
      the mask, no device connected. */
  const INITIAL: PicState :=
    PicState(false, false, false, false, true, 0, Idle, 0, 0, 0, 0, seq(PIC_IRQ_COUNT, _ => false))

  /** `1 << n` stored in a `uint8_t` register: the bit of line `n`, and no
      bit for numbers beyond the eight lines. */
  function Bit(n: uint8): uint8 {
    if n < 8 then (1 as uint8) << n else 0
  }

  // ---------------------------------------------------------------------
  // Reads

  /** `read_command`: the request register, or the in-service register
      after OCW3 selected it. */
  function CommandRead(s: PicState): uint8 {
    if s.dataIsIrr then s.irr else s.isr
  }

  /** `read_data`: the interrupt mask. */
  function DataRead(s: PicState): uint8 {
    s.imr
  }

  // ---------------------------------------------------------------------
  // Requests and their selection

  /** `push_irq`: line `n` becomes requested unless it is masked. */
  function Push(s: PicState, n: uint8): PicState {
    s.(irr := s.irr | (!s.imr & Bit(n)))
  }

  /** The register after the lines below `n` whose device is connected and
      raises its line when polled (`raised`) have been pushed in order. */
  function PushPolled(s: PicState, raised: set<uint8>, n: uint8): (r: PicState)
    requires s.Valid() && n <= 8
    ensures r.Valid()
    decreases n as int
  {
    if n == 0 then s
    else
      var t := PushPolled(s, raised, n - 1);
      if s.devices[n - 1] && n - 1 in raised then Push(t, n - 1) else t
  }

  /** The selection loop of `poll_irq`: starting at line `sel`, look at up
      to `k` lines in rotating order and stop at the first one whose bit is
      set in `pending`. When none is, the line after the last one looked at. */
  function Scan(pending: uint8, sel: uint8, k: uint8): (r: uint8)
    ensures sel < 8 ==> r < 8
    decreases k as int
  {
    if k == 0 || pending & Bit(sel) != 0 then sel
    else Scan(pending, (sel + 1) % 8, k - 1)
  }

  /** The line `poll_irq` selects. */
  function Selected(s: PicState): uint8 {
    Scan(s.irr, s.topPriorityIrq, 8)
  }

  /** The step of `poll_irq` after the selection, as written: pic.cpp:156
      reads `isr != 1 << selected_irq;`, a comparison whose value is
      discarded, so only the request is cleared. */
  function SelectAsWritten(s: PicState): PicState {
    var sel := Selected(s);
    s.(irr := s.irr & !Bit(sel))
  }

  /** The step as intended: the selected line goes in service (`isr |=`)
      and its request is cleared. */
  function Select(s: PicState): PicState {
    var sel := Selected(s);
    s.(isr := s.isr | Bit(sel), irr := s.irr & !Bit(sel))
  }

  /** `poll_irq`: the connected devices are polled (pushing the lines in
      `raised`), then one request is selected. */
  function Poll(s: PicState, raised: set<uint8>): (r: PicState)
    requires s.Valid()
    ensures r.Valid()
  {
    Select(PushPolled(s, raised, 8))
  }

  // ---------------------------------------------------------------------
  // OCW2

  /** Commands 1 and 5 (non-specific EOI) as written: the loop tests the
      same line eight times because it never advances `selected_irq`, so
      only the bit of `top_priority_irq` is cleared. */
  function EoiAsWritten(s: PicState): uint8 {
    s.isr & !Bit(s.topPriorityIrq)
  }

  /** Commands 1 and 5 as intended: the in-service line of highest
      priority, found by the rotating scan `poll_irq` uses, is cleared. */
  function Eoi(s: PicState): uint8 {
    ClearFirst(s.isr, s.topPriorityIrq, 8)
  }

  /** The intended loop of commands 1 and 5: starting at line `sel`, look
      at up to `k` lines in rotating order and clear the first one whose
      bit is set in `inService`. */
  function ClearFirst(inService: uint8, sel: uint8, k: uint8): uint8
    decreases k as int
  {
    if k == 0 then inService
    else if inService & Bit(sel) != 0 then inService & !Bit(sel)
    else ClearFirst(inService, (sel + 1) % 8, k - 1)
  }

  /** `ocw2` for the commands that do not depend on how commands 1 and 5
      are read; `eoi` is the in-service register those two leave. */
  function Ocw2With(s: PicState, irq: uint8, command: uint8, eoi: uint8): PicState {
    match command
    case 0 => if s.aeoiEnabled then s.(rotationEnabled := false) else s
    case 1 => s.(isr := eoi, rotationEnabled := false)
    case 2 => s
    case 3 => s.(isr := s.isr & !Bit(irq), rotationEnabled := false)
    case 4 => if s.aeoiEnabled then s.(rotationEnabled := true) else s
    case 5 => s.(isr := eoi, rotationEnabled := true)
    case 6 => s.(rotationEnabled := true)
    case 7 => s.(isr := s.isr & !Bit(irq), rotationEnabled := true)
    case _ => s
  }

  /** `ocw2` as written. */
  function Ocw2CommandAsWritten(s: PicState, irq: uint8, command: uint8): PicState {
    Ocw2With(s, irq, command, EoiAsWritten(s))
  }

  /** `ocw2` as intended, which the device uses. */
  function Ocw2Command(s: PicState, irq: uint8, command: uint8): PicState {
    Ocw2With(s, irq, command, Eoi(s))
  }

  // ---------------------------------------------------------------------
  // Writes

  /** `write_command`: ICW1 (bit 3 set) starts the initialisation sequence;
      otherwise bit 2 clear is OCW2 (line in bits 2..0, command in bits
      7..5) and bit 2 set is OCW3, whose low bits 10 and 11 select the
      request or the in-service register for `read_command`. */
  function CommandWrite(s: PicState, value: uint8): PicState {
    if value & 0x8 == 0x8 then
      s.(icw4Enabled := value & 0x1 != 0, icw3Enabled := value & 0x2 == 0, status := Icw2)
    else if value & 0xc == 0x0 then
      Ocw2Command(s, value & 0x7, value >> 5)
    else if value & 0xc == 0x4 then
      if value & 0x3 == 0x2 then s.(dataIsIrr := true)
      else if value & 0x3 == 0x3 then s.(dataIsIrr := false)
      else s
    else
      s  // "Unknown command": no byte with bit 3 clear gets here
  }

  /** `write_command` as C++ parses it: `==` binds tighter than `&`, so
      `value & 0x8 == 0x8` is `value & 1`, the OCW2 and OCW3 tests are
      `value & 0`, `value & 0x1 != 0` is `value & 1` and
      `value & 0x2 == 0` is 0. Odd bytes start the initialisation without
      ICW3 and with ICW4; even bytes are "unknown commands". */
  function CommandWriteAsWritten(s: PicState, value: uint8): PicState {
    if value & 0x1 != 0 then
      s.(icw4Enabled := true, icw3Enabled := false, status := Icw2)
    else
      s
  }

  /** `write_data`: OCW1 (the mask) when idle, otherwise the next word of
      the initialisation sequence; ICW3 and ICW4 are skipped when ICW1 did
      not announce them. */
  function DataWrite(s: PicState, value: uint8): PicState {
    if s.status == Idle then s.(imr := value)
    else if s.status == Icw2 then
      s.(interruptVectorAddress := value,
         status := if s.icw3Enabled then Icw3 else if s.icw4Enabled then Icw4 else Idle)
    else if s.status == Icw3 then s.(status := if s.icw4Enabled then Icw4 else Idle)
    else s.(status := Idle)
  }

  /** `connect_io_device`: numbers beyond the eight lines are refused. */
  function Connect(s: PicState, n: uint8, connected: bool): (r: PicState)
    requires s.Valid()
    ensures r.Valid()
  {
    if n >= 8 then s else s.(devices := s.devices[n := connected])
  }

  /** `write`: single-byte writes to port 0x20 are commands, to 0x21 data. */
  function PortWrite(s: PicState, port: uint32, value: uint32, size: uint8): PicState {
    var offset := PortOffset(port, PIC_BASE_PORT);
    if size != SINGLE_BYTE then s
    else if offset == 0 then CommandWrite(s, DataByte(value))
    else if offset == 1 then DataWrite(s, DataByte(value))
    else s
  }

  /** `read`: a single-byte read of port 0x20 or 0x21 stores the register
      into the caller's whole 32-bit word (through a `uint32_t *`). */
  function PortRead(s: PicState, port: uint32, value: uint32, size: uint8): uint32 {
    var offset := PortOffset(port, PIC_BASE_PORT);
    if size != SINGLE_BYTE then value
    else if offset == 0 then CommandRead(s) as uint32
    else if offset == 1 then DataRead(s) as uint32
    else value
  }

  /** The PIC object of pic.cpp. */
  class PIC {
    const devices: array<bool>
    var icw3Enabled: bool
    var icw4Enabled: bool
    var aeoiEnabled: bool
    var rotationEnabled: bool
    var dataIsIrr: bool
    var interruptVectorAddress: uint8
    var status: PicStatus
    var topPriorityIrq: uint8
    var irr: uint8
    var imr: uint8
    var isr: uint8

    ghost predicate Valid()
      reads this
    {
      devices.Length == PIC_IRQ_COUNT
    }

    /** The value this object stands for. */
    ghost function State(): (s: PicState)
      reads this, devices
      requires Valid()
      ensures s.Valid()
    {
      PicState(icw3Enabled, icw4Enabled, aeoiEnabled, rotationEnabled, dataIsIrr,
               interruptVectorAddress, status, topPriorityIrq, irr, imr, isr, devices[..])
    }

    /** `PIC()`. */
    constructor ()
      ensures Valid() && fresh(devices)
      ensures State() == INITIAL
    {
      icw3Enabled := false;
      icw4Enabled := false;
      aeoiEnabled := false;      // not initialised in the source
      rotationEnabled := false;  // not initialised in the source
      dataIsIrr := true;
      interruptVectorAddress := 0;
      status := Idle;
      irr, imr, isr := 0, 0, 0;
      topPriorityIrq := 0;
      devices := new bool[PIC_IRQ_COUNT](_ => false);
    }

    /** `connect_io_device`. */
    method ConnectIoDevice(n: uint8, connected: bool)
      requires Valid()
      modifies devices
      ensures Valid() && State() == Connect(old(State()), n, connected)
    {
      if n >= 8 {
        return;  // "Invalid IRQ number"
      }
      devices[n] := connected;
    }

    /** `read_command`. */
    method ReadCommand() returns (r: uint8)
      requires Valid()
      ensures r == CommandRead(State())
    {
      if dataIsIrr {
        r := irr;
      } else {
        r := isr;
      }
    }

    /** `read_data`. */
    method ReadData() returns (r: uint8)
      requires Valid()
      ensures r == DataRead(State())
    {
      r := imr;
    }

    /** `push_irq`. */
    method PushIrq(n: uint8)
      requires Valid()
      modifies this
      ensures Valid() && State() == Push(old(State()), n)
    {
      irr := irr | (!imr & Bit(n));
    }

    /** `poll_irq`: the connected devices are polled, pushing the lines in
        `raised`, and then the request of highest priority is put in
        service. */
    method PollIrq(raised: set<uint8>)
      requires Valid()
      modifies this
      ensures Valid() && State() == Poll(old(State()), raised)
    {
      PollDevices(raised);
      ServeIrq();
    }

    /** The first loop of `poll_irq`: each connected device is polled and,
        when its line is in `raised`, pushes it. */
    method PollDevices(raised: set<uint8>)
      requires Valid()
      modifies this
      ensures Valid() && State() == PushPolled(old(State()), raised, 8)
    {
      var i: uint8 := 0;
      while i < 8
        invariant Valid() && i <= 8
        invariant State() == PushPolled(old(State()), raised, i)
        decreases 8 - i as int
      {
        if devices[i] && i in raised {
          PushIrq(i);  // what the device's own `poll_irq` does
        }
        i := i + 1;
      }
    }

    /** The rest of `poll_irq`: the selected line goes in service and its
        request is cleared. */
    method ServeIrq()
      requires Valid()
      modifies this
      ensures Valid() && State() == Select(old(State()))
    {
      var selected := SelectIrq();
      ServeLine(selected);
    }

    /** The two statements after the selection loop. */
    method ServeLine(selected: uint8)
      requires Valid()
      modifies this
      ensures Valid()
      ensures State() == old(State()).(isr := old(isr) | Bit(selected), irr := old(irr) & !Bit(selected))
    {
      isr := isr | Bit(selected);  // `isr != ...` at pic.cpp:156; see SelectAsWritten
      irr := irr & !Bit(selected);
    }

    /** The selection loop of `poll_irq`: from `top_priority_irq` on, the
        first line with a request, or `top_priority_irq` when there is none. */
    method SelectIrq() returns (selected: uint8)
      requires Valid()
      ensures selected == Selected(State())
    {
      selected := topPriorityIrq;
      var i: uint8 := 0;
      while i < 8
        invariant i <= 8
        invariant Scan(irr, selected, 8 - i) == Selected(State())
        decreases 8 - i as int
      {
        if irr & Bit(selected) != 0 {
          break;
        }
        selected := (selected + 1) % 8;
        i := i + 1;
      }
    }

    /** OCW2 commands 1 and 5, the non-specific EOI, as intended: the loop
        advances `selected_irq` and stops at the first line in service;
        then rotation is switched off (1) or on (5). */
    method EndOfInterrupt(irq: uint8, command: uint8)
      requires Valid() && (command == 1 || command == 5)
      modifies this
      ensures Valid() && State() == Ocw2Command(old(State()), irq, command)
    {
      var selected := topPriorityIrq;
      var i: uint8 := 0;
      while i < 8
        invariant i <= 8 && isr == old(isr)
        invariant ClearFirst(isr, selected, 8 - i) == Eoi(old(State()))
        decreases 8 - i as int
      {
        if isr & Bit(selected) != 0 {
          isr := isr & !Bit(selected);
          break;
        }
        selected := (selected + 1) % 8;
        i := i + 1;
      }
      rotationEnabled := command == 5;
    }

    /** OCW2 commands 3 and 7, the specific EOI of line `irq`; then rotation
        is switched off (3) or on (7). */
    method SpecificEndOfInterrupt(irq: uint8, command: uint8)
      requires Valid() && (command == 3 || command == 7)
      modifies this
      ensures Valid() && State() == Ocw2Command(old(State()), irq, command)
    {
      isr := isr & !Bit(irq);
      rotationEnabled := command == 7;
    }

    /** The OCW2 commands that only set the rotation flag: 0 (off) and 4
        (on) when automatic EOI is enabled, 6 (on) always; 2 does nothing. */
    method SetRotation(irq: uint8, command: uint8)
      requires Valid() && (command == 0 || command == 2 || command == 4 || command == 6)
      modifies this
      ensures Valid() && State() == Ocw2Command(old(State()), irq, command)
    {
      if command == 6 || (command != 2 && aeoiEnabled) {
        rotationEnabled := command != 0;
      }
    }

    /** `ocw2`: `command` is the top three bits of the command byte. */
    method Ocw2(irq: uint8, command: uint8)
      requires Valid()
      modifies this
      ensures Valid() && State() == Ocw2Command(old(State()), irq, command)
    {
      match command {
        case 1 => EndOfInterrupt(irq, command);
        case 5 => EndOfInterrupt(irq, command);
        case 3 => SpecificEndOfInterrupt(irq, command);
        case 7 => SpecificEndOfInterrupt(irq, command);
        case 0 => SetRotation(irq, command);
        case 2 => SetRotation(irq, command);
        case 4 => SetRotation(irq, command);
        case 6 => SetRotation(irq, command);
        case _ =>
      }
    }

    /** `write_command`. */
    method WriteCommand(value: uint8)
      requires Valid()
      modifies this
      ensures Valid() && State() == CommandWrite(old(State()), value)
    {
      if value & 0x8 == 0x8 {
        // ICW1
        icw4Enabled := value & 0x1 != 0;
        icw3Enabled := value & 0x2 == 0;  // `cascading_enabled` in the source
        status := Icw2;
      } else if value & 0xc == 0x0 {
        // OCW2
        Ocw2(value & 0x7, value >> 5);
      } else if value & 0xc == 0x4 {
        // OCW3; special mask mode (bits 6 and 5) is reported, not supported
        if value & 0x3 == 0x2 {
          dataIsIrr := true;
        } else if value & 0x3 == 0x3 {
          dataIsIrr := false;
        }
      }
    }

    /** `write_data`. */
    method WriteData(value: uint8)
      requires Valid()
      modifies this
      ensures Valid() && State() == DataWrite(old(State()), value)
    {
      match status {
        case Idle =>
          imr := value;  // OCW1
        case Icw2 =>
          interruptVectorAddress := value;
          if icw3Enabled {
            status := Icw3;
          } else if icw4Enabled {
            status := Icw4;
          } else {
            status := Idle;
          }
        case Icw3 =>
          if icw4Enabled {
            status := Icw4;
          } else {
            status := Idle;
          }
        case Icw4 =>
          status := Idle;
      }
    }

    /** `write`. */
    method Write(port: uint32, value: uint32, size: uint8)
      requires Valid()
      modifies this
      ensures Valid() && State() == PortWrite(old(State()), port, value, size)
    {
      if size != SINGLE_BYTE {
        return;  // "PIC only supports single-byte R/W"
      }
      var offset := PortOffset(port, PIC_BASE_PORT);
      if offset == 0 {
        WriteCommand(DataByte(value));
      } else if offset == 1 {
        WriteData(DataByte(value));
      }
    }

    /** `read`: `value` is the caller's word before the call and `r` the
        word after it. */
    method Read(port: uint32, value: uint32, size: uint8) returns (r: uint32)
      requires Valid()
      ensures r == PortRead(State(), port, value, size)
    {
      r := value;
      if size != SINGLE_BYTE {
        return;  // "PIC only supports single-byte R/W"
      }
      var offset := PortOffset(port, PIC_BASE_PORT);
      if offset == 0 {
        var b := ReadCommand();
        r := b as uint32;
      } else if offset == 1 {
        var b := ReadData();
        r := b as uint32;
      }
    }
  }
}
