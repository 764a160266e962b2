/** The Intel 8254 programmable interval timer of pit.h / pit.cpp.

    Three channels count down from a reload value at PIT_CLOCK_FREQ. The
    counters are not decremented clock by clock: each access first folds
    the clocks that elapsed since `next_clock_time` into every running
    channel at once (`tick`). The host clock is the parameter `now`
    (nanoseconds), which the source reads with `get_real_time`.

    The first half of the module is the value-level model: one function per
    operation of pit.cpp over `PitState`. The class `PIT` at the end keeps
    the per-channel registers in an array updated in place; each of its
    methods is proved to change `State()` as the function says. */
module Pit {
  import opened Machine
  import opened IoDevice

  const PIT_BASE_PORT: uint32 := 0x40
  const PIT_CLOCK_FREQ: int := 1193182
  const PIT_CH_COUNT: int := 3
  const PIT_S_IN_NS: int := 1000000000
  const PIT_IRQ_CH: int := 0

  /** pit_access_mode_t: LATCH = 0, LOBYTE = 1, HIBYTE = 2, HILOBYTE = 3. */
  datatype AccessMode = Latch | LoByte | HiByte | HiLoByte

  /** pit_operating_mode_t: only modes 0, 2 and 3 exist. */
  datatype OperatingMode = Mode0 | Mode2 | Mode3

  /** The access mode a two-bit field of the control word names. */
  function AccessModeOf(field: uint8): AccessMode
    requires field < 4
  {
    if field == 0 then Latch
    else if field == 1 then LoByte
    else if field == 2 then HiByte
    else HiLoByte
  }

  /** The numeric value of an access mode in pit_access_mode_t. */
  function AccessModeBits(m: AccessMode): uint8 {
    match m
    case Latch => 0
    case LoByte => 1
    case HiByte => 2
    case HiLoByte => 3
  }

  /** The operating mode a mode field names; the caller has rejected 1 and 4..7. */
  function OperatingModeOf(field: uint8): OperatingMode
    requires field == 0 || field == 2 || field == 3
  {
    if field == 0 then Mode0 else if field == 2 then Mode2 else Mode3
  }

  /** The numeric value of an operating mode in pit_operating_mode_t. */
  function OperatingModeBits(m: OperatingMode): uint8 {
    match m
    case Mode0 => 0
    case Mode2 => 2
    case Mode3 => 3
  }

  /** What a control byte asks for, after the checks of `write_control`. */
  datatype Control =
    | Unsupported
    | LatchCount(channel: int)
    | Program(channel: int, mode: OperatingMode, access: AccessMode)

  /** The index a two-bit channel field names (3 is not a channel). */
  function ChannelIndex(field: uint8): int
    requires field < 4
  {
    if field == 0 then 0 else if field == 1 then 1 else if field == 2 then 2 else 3
  }

  /** Control word layout: bit 0 BCD, bits 3..1 operating mode, bits 5..4
      access mode, bits 7..6 channel. BCD counting, channel 3, mode 1 and
      modes 4..7 are unsupported; access mode 0 is the counter-latch command. */
  function DecodeControl(value: uint8): (r: Control)
    ensures r.LatchCount? || r.Program? ==> 0 <= r.channel < PIT_CH_COUNT
    ensures r.Program? ==> r.access != Latch
  {
    var bcd := value & 0x1;
    var op := (value >> 1) & 0x7;
    var access := (value >> 4) & 0x3;
    var channel := ChannelIndex((value >> 6) & 0x3);
    if bcd != 0 || channel >= PIT_CH_COUNT || op == 1 || op > 3 then Unsupported
    else if access == 0 then LatchCount(channel)
    else Program(channel, OperatingModeOf(op), AccessModeOf(access))
  }

  /** The control byte that asks for `c` (the inverse of DecodeControl). */
  function EncodeControl(c: Control): uint8
    requires c.LatchCount? || c.Program? ==> 0 <= c.channel < PIT_CH_COUNT
    requires c.Program? ==> c.access != Latch
  {
    match c
    case Unsupported => 0x1
    case LatchCount(ch) => (ch as uint8) << 6
    case Program(ch, mode, access) =>
      ((ch as uint8) << 6) | (AccessModeBits(access) << 4) | (OperatingModeBits(mode) << 1)
  }

  /** One channel's registers, one field per parallel array of pit.h. */
  datatype Channel = Channel(
    reload: uint16,      // reload_values: the counter restarts from this value
    current: uint16,     // current_values
    latched: uint16,     // latched_values: snapshot taken by a latch command
    output: bool,        // output: the OUT pin
    running: bool,       // is_running
    operatingMode: OperatingMode,
    accessMode: AccessMode,
    accessByte: uint8)   // access_bytes: 0 = low byte next, 1 = high byte next

  /** Every channel as the constructor leaves it. */
  const IDLE_CHANNEL: Channel := Channel(0, 0, 0, false, false, Mode0, LoByte, 0)

  /** The whole timer: three channels and the time up to which clocks are folded in. */
  datatype PitState = PitState(channels: seq<Channel>, nextClockTime: uint64) {
    /** Three channels, each byte cursor 0 or 1. */
    predicate Valid() {
      |channels| == PIT_CH_COUNT &&
      forall ch | 0 <= ch < PIT_CH_COUNT :: channels[ch].accessByte <= 1
    }

    /** The same timer with channel `ch` replaced. */
    function With(ch: int, c: Channel): PitState
      requires 0 <= ch < |channels|
    {
      this.(channels := channels[ch := c])
    }
  }

  /** `PIT()`: the host clock read by the constructor is `now`. */
  function Initial(now: uint64): PitState {
    PitState([IDLE_CHANNEL, IDLE_CHANNEL, IDLE_CHANNEL], now)
  }

  /** Clocks covered by `elapsed` nanoseconds: `elapsed * PIT_CLOCK_FREQ /
      PIT_S_IN_NS` in `uint64_t`, where the product wraps modulo 2^64. */
  function ClocksFor(elapsed: uint64): uint64 {
    (Wrap64(elapsed as int * PIT_CLOCK_FREQ) as int / PIT_S_IN_NS) as uint64
  }

  /** `tick_counter`: fold `clocks` input clocks into a running channel.
      Only `clocks % reload` steps are applied. When the counter would reach
      or pass zero it is reloaded to `reload + (current - steps) % reload`,
      with C++'s truncating `%` on the negative `int` difference; mode 0
      then raises OUT and stops, mode 3 toggles OUT. Otherwise the counter
      drops by `steps` and mode 3 toggles OUT when it crosses `reload / 2`.
      Mode 2 keeps OUT as it is. A reload of 0 divides by zero in the
      source, so it is excluded. */
  function TickChannel(c: Channel, clocks: uint64): (r: Channel)
    requires c.reload > 0
    ensures r == c.(current := r.current, output := r.output, running := r.running)
  {
    var reload := c.reload as int;
    var steps := clocks as int % reload;
    var current := c.current as int;
    if current <= steps then
      var reloaded := (reload + CRem(current - steps, reload)) as uint16;
      match c.operatingMode
      case Mode0 => c.(current := reloaded, output := true, running := false)
      case Mode2 => c.(current := reloaded)
      case Mode3 => c.(current := reloaded, output := !c.output)
    else
      var crossesHalf := current > reload / 2 && current - steps <= reload / 2;
      var toggles := c.operatingMode == Mode3 && crossesHalf;
      c.(current := (current - steps) as uint16,
         output := if toggles then !c.output else c.output)
  }

  /** The loop body of `tick`: only running channels are advanced. */
  function Advance(c: Channel, clocks: uint64): (r: Channel)
    requires c.running ==> c.reload > 0
    ensures r == c.(current := r.current, output := r.output, running := r.running)
    ensures !c.running ==> r == c
  {
    if c.running then TickChannel(c, clocks) else c
  }

  /** Every running channel has a non-zero reload value. */
  predicate RunningReloaded(s: PitState)
    requires s.Valid()
  {
    forall ch | 0 <= ch < PIT_CH_COUNT :: s.channels[ch].running ==> s.channels[ch].reload > 0
  }

  /** `tick` is defined (divides by no zero reload) at time `now`. */
  predicate TickDefined(s: PitState, now: uint64)
    requires s.Valid()
  {
    now <= s.nextClockTime || RunningReloaded(s)
  }

  /** `tick`: nothing happens unless `now` is past `next_clock_time`. Then
      every running channel advances by the clocks of the elapsed time and
      `next_clock_time` becomes `now + elapsed` (64-bit). */
  function TickState(s: PitState, now: uint64): (r: PitState)
    requires s.Valid() && TickDefined(s, now)
    ensures r.Valid()
    ensures now <= s.nextClockTime ==> r == s
  {
    if now <= s.nextClockTime then s
    else
      var elapsed := now - s.nextClockTime;
      var clocks := ClocksFor(elapsed);
      PitState([Advance(s.channels[0], clocks), Advance(s.channels[1], clocks),
                Advance(s.channels[2], clocks)],
               Wrap64(now as int + elapsed as int))
  }

  /** A counter-latch command on one (already ticked) channel: the access
      mode becomes LATCH and the counter is copied into the latch. */
  function LatchChannel(c: Channel): Channel {
    c.(accessMode := Latch, latched := c.current)
  }

  /** Any other supported control command on one channel: new operating and
      access modes, latch, reload and counter cleared, channel stopped, OUT
      high; selecting lo/hi access also resets the byte cursor. */
  function ProgramChannel(c: Channel, mode: OperatingMode, access: AccessMode): Channel {
    c.(accessMode := access, latched := 0, operatingMode := mode,
       accessByte := if access == HiLoByte then 0 else c.accessByte,
       reload := 0, current := 0, output := true, running := false)
  }

  /** `write_control`. A counter-latch command first runs `tick`; unsupported
      commands change nothing. */
  function ControlWriteState(s: PitState, value: uint8, now: uint64): (r: PitState)
    requires s.Valid()
    requires DecodeControl(value).LatchCount? ==> TickDefined(s, now)
    ensures r.Valid()
  {
    match DecodeControl(value)
    case Unsupported => s
    case LatchCount(ch) =>
      var t := TickState(s, now);
      t.With(ch, LatchChannel(t.channels[ch]))
    case Program(ch, mode, access) =>
      s.With(ch, ProgramChannel(s.channels[ch], mode, access))
  }

  function LowByte(x: uint16): uint8 { ToUint8(x as int % 256) }
  function HighByte(x: uint16): uint8 { ToUint8(x as int / 256) }

  /** `(r & 0xff00) | b`: the low byte of `r` replaced by `b`. */
  function WithLowByte(r: uint16, b: uint8): uint16 {
    (r as int / 256 * 256 + b as int) as uint16
  }

  /** `(r & 0xff) | b << 8`: the high byte of `r` replaced by `b`. */
  function WithHighByte(r: uint16, b: uint8): uint16 {
    (r as int % 256 + b as int * 256) as uint16
  }

  /** One byte read from a (ticked) channel's data port, according to its
      access mode and byte cursor: the counter's low or high byte, or in
      LATCH mode the latch's, which is cleared after its high byte is read.
      `value` is the byte the caller's pointer held before the call; it is
      returned unchanged when no branch stores to it. */
  function ReadChannel(c: Channel, value: uint8): (Channel, uint8) {
    match c.accessMode
    case LoByte => (c, LowByte(c.current))
    case HiByte => (c, HighByte(c.current))
    case HiLoByte =>
      if c.accessByte == 0 then (c.(accessByte := 1), LowByte(c.current))
      else if c.accessByte == 1 then (c.(accessByte := 0), HighByte(c.current))
      else (c, value)
    case Latch =>
      if c.accessByte == 0 then (c.(accessByte := 1), LowByte(c.latched))
      else if c.accessByte == 1 then (c.(accessByte := 0, latched := 0), HighByte(c.latched))
      else (c, value)
  }

  /** `read_data`: run `tick`, then read one byte of the channel. */
  function DataReadResult(s: PitState, ch: int, now: uint64, value: uint8): (r: (PitState, uint8))
    requires s.Valid() && 0 <= ch < PIT_CH_COUNT && TickDefined(s, now)
    ensures r.0.Valid()
  {
    var t := TickState(s, now);
    var (c, b) := ReadChannel(t.channels[ch], value);
    (t.With(ch, c), b)
  }

  /** `start_counter`: a channel that is not running loads its counter from
      the reload value and starts; OUT goes low in mode 0 and high in modes
      2 and 3. A running channel is left alone. */
  function StartChannel(c: Channel): Channel {
    if c.running then c
    else
      var started := c.(current := c.reload, running := true);
      match c.operatingMode
      case Mode0 => started.(output := false)
      case Mode2 => started.(output := true)
      case Mode3 => started.(output := true)
  }

  /** One byte written to a channel's data port: single-byte access modes
      replace one byte of the reload value and start the counter; lo/hi (and
      LATCH) mode replaces the low byte on the first write and the high byte
      on the second, which starts the counter. */
  function WriteChannel(c: Channel, value: uint8): Channel {
    match c.accessMode
    case LoByte => StartChannel(c.(reload := WithLowByte(c.reload, value)))
    case HiByte => StartChannel(c.(reload := WithHighByte(c.reload, value)))
    case _ =>
      if c.accessByte == 0 then c.(reload := WithLowByte(c.reload, value), accessByte := 1)
      else if c.accessByte == 1 then
        StartChannel(c.(reload := WithHighByte(c.reload, value), accessByte := 0))
      else c
  }

  /** `write_data`. */
  function DataWriteState(s: PitState, ch: int, value: uint8): (r: PitState)
    requires s.Valid() && 0 <= ch < PIT_CH_COUNT
    ensures r.Valid()
  {
    s.With(ch, WriteChannel(s.channels[ch], value))
  }

  /** A port write is defined: a latch command through the control port
      must find `tick` defined. */
  predicate WriteDefined(s: PitState, port: uint32, value: uint32, size: uint8, now: uint64)
    requires s.Valid()
  {
    (size == SINGLE_BYTE && PortOffset(port, PIT_BASE_PORT) == 3 &&
     DecodeControl(DataByte(value)).LatchCount?) ==> TickDefined(s, now)
  }

  /** `write`: single-byte writes to offsets 0..2 go to a channel's data
      port, offset 3 to the control port; anything else is ignored. */
  function PortWriteState(s: PitState, port: uint32, value: uint32, size: uint8, now: uint64): (r: PitState)
    requires s.Valid() && WriteDefined(s, port, value, size, now)
    ensures r.Valid()
  {
    var offset := PortOffset(port, PIT_BASE_PORT);
    if size != SINGLE_BYTE then s
    else if offset == 0 then DataWriteState(s, 0, DataByte(value))
    else if offset == 1 then DataWriteState(s, 1, DataByte(value))
    else if offset == 2 then DataWriteState(s, 2, DataByte(value))
    else if offset == 3 then ControlWriteState(s, DataByte(value), now)
    else s
  }

  /** A port read is defined: a data-port read must find `tick` defined. */
  predicate ReadDefined(s: PitState, port: uint32, size: uint8, now: uint64)
    requires s.Valid()
  {
    (size == SINGLE_BYTE && PortOffset(port, PIT_BASE_PORT) < 3) ==> TickDefined(s, now)
  }

  /** `read`: single-byte reads of offsets 0..2 read a channel's data port
      into the low byte of `value`; the control port is write-only. */
  function PortReadResult(s: PitState, port: uint32, value: uint32, size: uint8, now: uint64): (r: (PitState, uint32))
    requires s.Valid() && ReadDefined(s, port, size, now)
    ensures r.0.Valid()
  {
    var offset := PortOffset(port, PIT_BASE_PORT);
    if size != SINGLE_BYTE || offset >= 3 then (s, value)
    else
      var ch := if offset == 0 then 0 else if offset == 1 then 1 else 2;
      var (t, b) := DataReadResult(s, ch, now, DataByte(value));
      (t, WithDataByte(value, b))
  }

  /** The fields `write_control` extracts from a control byte, as DecodeControl reads them. */
  lemma DecodeControlFields(value: uint8, op: uint8, access: uint8, ch: int)
    requires op == (value >> 1) & 0x7 && access == (value >> 4) & 0x3
    requires ch == ChannelIndex((value >> 6) & 0x3)
    ensures DecodeControl(value).Unsupported? <==>
            (value & 0x1 != 0 || ch >= PIT_CH_COUNT || op == 1 || op > 3)
    ensures DecodeControl(value).LatchCount? <==> DecodeControl(value) == LatchCount(ch)
    ensures !DecodeControl(value).Unsupported? && access == 0 ==> DecodeControl(value).LatchCount?
    ensures !(value & 0x1 != 0 || ch >= PIT_CH_COUNT || op == 1 || op > 3) && access != 0 ==>
            DecodeControl(value) == Program(ch, OperatingModeOf(op), AccessModeOf(access))
  {
  }

  /** `tick_counter` neither reads nor writes the access mode. */
  lemma AdvanceIgnoresAccessMode(c: Channel, m: AccessMode, clocks: uint64)
    requires c.running ==> c.reload > 0
    ensures Advance(c.(accessMode := m), clocks) == Advance(c, clocks).(accessMode := m)
  {
  }

  /** `tick` neither reads nor writes access modes, so setting one before or
      after a tick gives the same timer. */
  lemma TickIgnoresAccessMode(s: PitState, ch: int, m: AccessMode, now: uint64)
    requires s.Valid() && 0 <= ch < PIT_CH_COUNT && TickDefined(s, now)
    ensures s.With(ch, s.channels[ch].(accessMode := m)).Valid()
    ensures TickDefined(s.With(ch, s.channels[ch].(accessMode := m)), now)
    ensures TickState(s.With(ch, s.channels[ch].(accessMode := m)), now) ==
            TickState(s, now).With(ch, TickState(s, now).channels[ch].(accessMode := m))
  {
    var s1 := s.With(ch, s.channels[ch].(accessMode := m));
    if now > s.nextClockTime {
      var clocks := ClocksFor(now - s.nextClockTime);
      AdvanceIgnoresAccessMode(s.channels[ch], m, clocks);
      var (a0, a1, a2) := (Advance(s.channels[0], clocks), Advance(s.channels[1], clocks),
                           Advance(s.channels[2], clocks));
      assert TickState(s, now).channels == [a0, a1, a2];
      if ch == 0 {
        assert s1.channels == [s.channels[0].(accessMode := m), s.channels[1], s.channels[2]];
      } else if ch == 1 {
        assert s1.channels == [s.channels[0], s.channels[1].(accessMode := m), s.channels[2]];
      } else {
        assert s1.channels == [s.channels[0], s.channels[1], s.channels[2].(accessMode := m)];
      }
    }
  }

  /** The PIT object of pit.cpp. Its parallel per-channel arrays are held as
      one array of per-channel records, updated in place field by field. */
  class PIT {
    const channels: array<Channel>
    var nextClockTime: uint64

    ghost predicate Valid()
      reads this, channels
    {
      channels.Length == PIT_CH_COUNT &&
      forall ch | 0 <= ch < PIT_CH_COUNT :: channels[ch].accessByte <= 1
    }

    /** The value this object stands for. */
    ghost function State(): (s: PitState)
      reads this, channels
      requires Valid()
      ensures s.Valid() && s.nextClockTime == nextClockTime && s.channels == channels[..]
    {
      PitState(channels[..], nextClockTime)
    }

    /** `PIT()`: every channel idle in mode 0, LOBYTE access, OUT low. */
    constructor (now: uint64)
      ensures Valid() && fresh(channels)
      ensures State() == Initial(now)
    {
      channels := new Channel[PIT_CH_COUNT](_ => IDLE_CHANNEL);
      nextClockTime := now;
    }

    /** `tick_counter`. */
    method TickCounter(ch: int, clocks: uint64)
      requires Valid() && 0 <= ch < PIT_CH_COUNT && channels[ch].reload > 0
      modifies channels
      ensures Valid()
      ensures channels[..] == old(channels[..])[ch := TickChannel(old(channels[ch]), clocks)]
    {
      var reload := channels[ch].reload as int;
      var steps := (clocks as int % reload) as uint16;
      if channels[ch].current <= steps {
        // Reload the counter; `current - steps` is a negative `int`.
        var reloaded := (reload + CRem(channels[ch].current as int - steps as int, reload)) as uint16;
        channels[ch] := channels[ch].(current := reloaded);
        // Raising IRQ 0 for channel PIT_IRQ_CH is a TODO in the source.
        match channels[ch].operatingMode
        case Mode0 =>
          channels[ch] := channels[ch].(output := true);
          channels[ch] := channels[ch].(running := false);
        case Mode2 =>
        case Mode3 =>
          channels[ch] := channels[ch].(output := !channels[ch].output);
      } else {
        // Modes 0 and 2 do nothing here.
        if channels[ch].operatingMode == Mode3 &&
           channels[ch].current as int > reload / 2 &&
           channels[ch].current as int - steps as int <= reload / 2 {
          channels[ch] := channels[ch].(output := !channels[ch].output);
        }
        channels[ch] := channels[ch].(current := channels[ch].current - steps);
      }
    }

    /** `tick`, with the host clock as `now`. */
    method Tick(now: uint64)
      requires Valid() && TickDefined(State(), now)
      modifies this, channels
      ensures Valid()
      ensures State() == TickState(old(State()), now)
    {
      var currentTime := now;
      var elapsedTime := Wrap64(currentTime as int - nextClockTime as int);
      var clocks := (Wrap64(elapsedTime as int * PIT_CLOCK_FREQ) as int / PIT_S_IN_NS) as uint64;
      if currentTime <= nextClockTime {
        return;
      }
      for i := 0 to PIT_CH_COUNT
        invariant Valid() && nextClockTime == old(nextClockTime)
        invariant forall j | 0 <= j < i :: channels[j] == Advance(old(channels[j]), clocks)
        invariant forall j | i <= j < PIT_CH_COUNT :: channels[j] == old(channels[j])
      {
        if !channels[i].running {
          continue;
        }
        TickCounter(i, clocks);
      }
      nextClockTime := Wrap64(currentTime as int + elapsedTime as int);
      assert channels[..] == TickState(old(State()), now).channels;
    }

    /** `poll_irq`: reconciles the counters with the host clock. */
    method PollIrq(now: uint64)
      requires Valid() && TickDefined(State(), now)
      modifies this, channels
      ensures Valid()
      ensures State() == TickState(old(State()), now)
    {
      Tick(now);
    }

    /** `start_counter`. */
    method StartCounter(ch: int)
      requires Valid() && 0 <= ch < PIT_CH_COUNT
      modifies channels
      ensures Valid()
      ensures channels[..] == old(channels[..])[ch := StartChannel(old(channels[ch]))]
    {
      if channels[ch].running {
        return;
      }
      channels[ch] := channels[ch].(current := channels[ch].reload);
      channels[ch] := channels[ch].(running := true);
      match channels[ch].operatingMode
      case Mode0 => channels[ch] := channels[ch].(output := false);
      case Mode2 => channels[ch] := channels[ch].(output := true);
      case Mode3 => channels[ch] := channels[ch].(output := true);
    }

    /** The counter-latch branch of `write_control`: the access mode becomes
        LATCH, then `tick` runs and the counter is copied into the latch. */
    method LatchCounter(channel: int, now: uint64)
      requires Valid() && 0 <= channel < PIT_CH_COUNT && TickDefined(State(), now)
      modifies this, channels
      ensures Valid()
      ensures State() == TickState(old(State()), now).With(channel,
        LatchChannel(TickState(old(State()), now).channels[channel]))
    {
      ghost var t := TickState(old(State()), now);
      channels[channel] := channels[channel].(accessMode := Latch);
      TickIgnoresAccessMode(old(State()), channel, Latch, now);
      Tick(now);
      ghost var ticked := channels[..];
      channels[channel] := channels[channel].(latched := channels[channel].current);
      assert channels[..] == ticked[channel := LatchChannel(t.channels[channel])];
    }

    /** `write_control`. */
    method WriteControl(value: uint8, now: uint64)
      requires Valid()
      requires DecodeControl(value).LatchCount? ==> TickDefined(State(), now)
      modifies this, channels
      ensures Valid()
      ensures State() == ControlWriteState(old(State()), value, now)
    {
      var bcdBinaryMode := value & 0x1;
      var operatingMode := (value >> 1) & 0x7;
      var accessMode := (value >> 4) & 0x3;
      var channel := ChannelIndex((value >> 6) & 0x3);
      DecodeControlFields(value, operatingMode, accessMode, channel);
      if bcdBinaryMode != 0 || channel >= PIT_CH_COUNT || operatingMode == 1 || operatingMode > 3 {
        return;  // "Unsupported feature"
      }
      if accessMode == AccessModeBits(Latch) {
        LatchCounter(channel, now);
        return;
      }
      channels[channel] := channels[channel].(accessMode := AccessModeOf(accessMode));
      // The remaining registers of the channel, gathered in `c` and stored at once.
      var c := channels[channel].(latched := 0);
      c := c.(operatingMode := OperatingModeOf(operatingMode));
      if accessMode == AccessModeBits(HiLoByte) {
        c := c.(accessByte := 0);
      }
      c := c.(reload := 0, current := 0, output := true, running := false);
      channels[channel] := c;
      assert channels[..] == old(channels[..])[channel :=
        ProgramChannel(old(channels[channel]), OperatingModeOf(operatingMode), AccessModeOf(accessMode))];
    }

    /** `read_data`: `value` is the byte behind the caller's pointer; the
        result is that byte after the call. */
    method ReadData(channel: int, value: uint8, now: uint64) returns (r: uint8)
      requires Valid() && 0 <= channel < PIT_CH_COUNT && TickDefined(State(), now)
      modifies this, channels
      ensures Valid()
      ensures (State(), r) == DataReadResult(old(State()), channel, now, value)
    {
      Tick(now);
      ghost var ticked := channels[..];
      var counter := channels[channel].current;
      r := value;
      match channels[channel].accessMode {
        case LoByte =>
          r := LowByte(counter);
        case HiByte =>
          r := HighByte(counter);
        case HiLoByte =>
          if channels[channel].accessByte == 0 {
            r := LowByte(counter);
            channels[channel] := channels[channel].(accessByte := 1);
          } else if channels[channel].accessByte == 1 {
            r := HighByte(counter);
            channels[channel] := channels[channel].(accessByte := 0);
          }
        case Latch =>
          if channels[channel].accessByte == 0 {
            r := LowByte(channels[channel].latched);
            channels[channel] := channels[channel].(accessByte := 1);
          } else if channels[channel].accessByte == 1 {
            r := HighByte(channels[channel].latched);
            channels[channel] := channels[channel].(accessByte := 0);
            channels[channel] := channels[channel].(latched := 0);
          }
      }
      assert (channels[channel], r) == ReadChannel(ticked[channel], value);
      assert channels[..] == ticked[channel := channels[channel]];
    }

    /** `write_data`. */
    method WriteData(channel: int, value: uint8)
      requires Valid() && 0 <= channel < PIT_CH_COUNT
      modifies channels
      ensures Valid()
      ensures State() == DataWriteState(old(State()), channel, value)
    {
      match channels[channel].accessMode
      case LoByte =>
        channels[channel] := channels[channel].(reload := WithLowByte(channels[channel].reload, value));
        StartCounter(channel);
      case HiByte =>
        channels[channel] := channels[channel].(reload := WithHighByte(channels[channel].reload, value));
        StartCounter(channel);
      case _ =>
        if channels[channel].accessByte == 0 {
          channels[channel] := channels[channel].(reload := WithLowByte(channels[channel].reload, value));
          channels[channel] := channels[channel].(accessByte := 1);
        } else if channels[channel].accessByte == 1 {
          channels[channel] := channels[channel].(reload := WithHighByte(channels[channel].reload, value));
          channels[channel] := channels[channel].(accessByte := 0);
          StartCounter(channel);
        }
    }

    /** `write`: the port-I/O entry point. */
    method Write(port: uint32, value: uint32, size: uint8, now: uint64)
      requires Valid() && WriteDefined(State(), port, value, size, now)
      modifies this, channels
      ensures Valid()
      ensures State() == PortWriteState(old(State()), port, value, size, now)
    {
      if size != SINGLE_BYTE {
        return;  // "PIT only supports single-byte R/W"
      }
      var offset := PortOffset(port, PIT_BASE_PORT);
      if offset == 0 {
        WriteData(0, DataByte(value));
      } else if offset == 1 {
        WriteData(1, DataByte(value));
      } else if offset == 2 {
        WriteData(2, DataByte(value));
      } else if offset == 3 {
        WriteControl(DataByte(value), now);
      }
    }

    /** `read`: the port-I/O entry point; `value` is the caller's word
        before the call and `r` the word after it. */
    method Read(port: uint32, value: uint32, size: uint8, now: uint64) returns (r: uint32)
      requires Valid() && ReadDefined(State(), port, size, now)
      modifies this, channels
      ensures Valid()
      ensures (State(), r) == PortReadResult(old(State()), port, value, size, now)
    {
      r := value;
      if size != SINGLE_BYTE {
        return;  // "PIT only supports single-byte R/W"
      }
      var offset := PortOffset(port, PIT_BASE_PORT);
      if offset == 0 {
        var b := ReadData(0, DataByte(value), now);
        r := WithDataByte(value, b);
      } else if offset == 1 {
        var b := ReadData(1, DataByte(value), now);
        r := WithDataByte(value, b);
      } else if offset == 2 {
        var b := ReadData(2, DataByte(value), now);
        r := WithDataByte(value, b);
      }
      // Offset 3: "Control register is write only".
    }
  }
}
