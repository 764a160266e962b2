# hv86 legacy chipset devices in Dafny

A model of the three legacy PC chipset devices emulated by the hv86
virtual machine monitor, with proofs about it. The guest drives each device
one byte at a time through port I/O:

- the **PIT** (Intel 8254 interval timer, `pit.cpp`) has three down-counting
  channels. They are reconciled lazily with the host clock: every access
  first folds all the clocks elapsed since the last one into the running
  counters;
- the **CMOS / RTC** (Motorola MC146818, `cmos.cpp`) has an address cursor in
  front of a register file. The file holds the wall-clock time, alarm
  registers, status registers A to D and constant firmware bytes. Values use
  BCD or binary encoding and the hour uses 12-hour or 24-hour format;
- the **PIC** (Intel 8259A interrupt controller, `pic.cpp`) keeps the
  request, mask and in-service registers. It also runs the ICW2, ICW3, ICW4
  initialisation sequence, decodes OCW1, OCW2 and OCW3, and selects the
  highest-priority request in rotating order from `top_priority_irq`.

## Layout

| file | module | contents |
|---|---|---|
| `machine.dfy` | `Machine` | C++ integer types; truncating `/` and `%`; 64-bit wrap-around |
| `io_device.dfy` | `IoDevice` | the port-I/O contract: port offsets, the byte a write carries, the byte a read stores |
| `pit.dfy` | `Pit` | the timer as values (`PitState`, one function per operation) and as the class `PIT`, whose channel array is updated in place |
| `pit_props.dfy` | `PitProps` | control word round trip; effects of control, data and tick operations; the `test_pit.cpp` sequence |
| `cmos.dfy` | `Cmos` | the RTC as values (`CmosState`) and as the class `CMOS` with the source's fields |
| `cmos_props.dfy` | `CmosProps` | BCD and hour round trips; register read-back; constant registers; pending flags that never change |
| `pic.dfy` | `Pic` | the controller as values (`PicState`) and as the class `PIC` with the source's fields |
| `pic_props.dfy` | `PicProps` | what selection serves; what each command word does; the initialisation sequence; the invariant that no operation moves the priority base |

Each device has two layers:

- A value layer: a function per operation over an immutable state record. The
  lemmas are stated about these functions.
- A class layer: the source's objects, with fields and arrays changed in
  place. Each method's `ensures` ties the new `State()` to that operation's
  function on the old state. The loops of `tick`, the PIC's device loop, its
  selection loop and the OCW2 1/5 loop are `while`/`for` loops with invariants.

Inputs from outside the devices are parameters:

- the host clock (`get_real_time`) is `now`, in nanoseconds;
- the local time (`get_time_components`) is a `Tm` record;
- the devices that the PIC polls are the set `raised` of lines whose device
  pushes its line when polled.

Where the system's documentation and its code disagree, the model follows
the code:

- A counter-latch command switches the channel's access mode to LATCH
  (pit.cpp:167 runs before the latch test).
- A reload value of 0 divides by zero in `tick_counter` (pit.cpp:105,
  pit.cpp:110); it is not counted as 65536. The model requires a non-zero
  reload of every running channel whenever a tick folds in clocks
  (`Pit.TickDefined`).
- Reading status register C does not clear the pending flags (cmos.cpp:158-167).
- In 12-hour mode, hours 0 to 12 are stored unchanged, with no PM flag on
  them (cmos.cpp:232-234).
- `encode` and `decode` are the identity in binary mode, whatever the
  comments at cmos.h:26-29 say.

Some behaviours of the code are unusual but not evidently wrong. The model
keeps them as written:

- `tick` sets `next_clock_time` to `now + elapsed` (pit.cpp:99), not to
  `now`. The time between `now` and the new `next_clock_time` is never
  counted (`PitProps.TickSkipsElapsedTime`).
- `tick_counter` counts only `clocks % reload` (pit.cpp:105), so a mode 0
  counter does not fire when a whole number of periods has elapsed
  (`PitProps.OneShotMissesWholePeriods`).
- With nothing requested, the selection loop of `poll_irq` ends at
  `top_priority_irq`, and that line is put in service all the same
  (pic.cpp:146-157, read with `isr |=`; `PicProps.PollWithoutRequest`).

Where the code is evidently wrong, the devices use the corrected definitions
(see Findings). The as-written definitions sit beside them, with lemmas that
show the difference:

- the CMOS hour conversions `encode_hour` and `decode_hour` (cmos.cpp:230-246)
  in BCD 12-hour mode;
- the `isr |=` step of `poll_irq` (pic.cpp:156);
- OCW2 commands 1 and 5 (pic.cpp:173-201). As written, the loop never
  advances, so it clears only the bit of `top_priority_irq`. The device
  instead uses the 8259A's non-specific EOI: it clears the first in-service
  line in rotating order from `top_priority_irq`;
- the `&`/`==` precedence in `write_command` (pic.cpp:74-90).

pic.cpp does not compile as written. The comment at the head of `pic.dfy`
lists each point where it does not compile or is evidently wrong, and what
the model does there. Where it does not compile:

- `iir` (pic.h) is read as `irr`;
- `cascading_enabled` is read as `icw3_enabled`;
- `connect_io_device` is a member;
- each `case` of `ocw2` has its own `selected_irq`;
- `ocw2`, called at pic.cpp:82 and defined at pic.cpp:165, is not declared
  in class `PIC` (pic.h); it is the member `Pic.PIC.Ocw2`;
- `poll_irq` is declared `void` (pic.h:20) but overrides `bool poll_irq()`
  (io_device.h:9); `Pic.PIC.PollIrq` returns nothing, as the definition at
  pic.cpp:136-158 does.

Where it compiles but is evidently wrong:

- `aeoi_enabled` and `rotation_enabled` are left uninitialised by the
  constructor; they start false;
- `value & M == K` is read as `(value & M) == K`, with the code's masks.

## Model

| member | source | states |
|---|---|---|
| `Machine.Wrap64` | pit.cpp:84-100 | `uint64_t` arithmetic gives the exact value whenever it fits in 64 bits |
| `Machine.Wrap64Congruent` | pit.cpp:84-100 | otherwise it gives the value reduced modulo 2^64 |
| `Machine.CRem` | pit.cpp:109-110 | C++ `%` on `int`: the remainder is never larger than the divisor in magnitude and takes the dividend's sign |
| `Machine.CDivRem` | cmos.cpp:142-194 | C++ `/` and `%` satisfy `a == b * (a / b) + a % b` |
| `IoDevice.DataByte` | pit.cpp:38-47 | a device receives the low byte of the written word (read through a `uint8_t *`): that byte together with the word's upper three bytes rebuilds the word |
| `IoDevice.WithDataByte` | pit.cpp:61-67 | a read through a `uint8_t *` replaces the low byte of the caller's word and keeps the other three |
| `Pit.DecodeControl` | pit.cpp:156-165 | every accepted control byte names channel 0, 1 or 2, and a programming command never selects LATCH access |
| `Pit.TickChannel` | pit.cpp:103-144 | `tick_counter` changes only the counter, OUT and the running flag of its channel |
| `Pit.Advance` | pit.cpp:93-98 | a stopped channel is left exactly as it was |
| `Pit.TickState` | pit.cpp:80-101 | `tick` at a time not past `next_clock_time` changes nothing; after any tick every byte cursor is still 0 or 1 |
| `Pit.ControlWriteState` | pit.cpp:154-186 | `write_control` keeps every byte cursor at 0 or 1 |
| `Pit.DataReadResult` | pit.cpp:188-220 | `read_data` keeps every byte cursor at 0 or 1 |
| `Pit.DataWriteState` | pit.cpp:222-248 | `write_data` keeps every byte cursor at 0 or 1 |
| `Pit.PortWriteState` | pit.cpp:29-50 | `write` keeps every byte cursor at 0 or 1; its dispatch is stated by `PitProps.PortWriteEffect` |
| `Pit.PortReadResult` | pit.cpp:52-73 | `read` keeps every byte cursor at 0 or 1; its dispatch is stated by `PitProps.PortReadEffect` |
| `Pit.DecodeControlFields` | pit.cpp:156-178 | the BCD, mode, access and channel fields `write_control` extracts decide the command exactly: unsupported, counter-latch on that channel, or programming with that mode and access |
| `Pit.AdvanceIgnoresAccessMode` | pit.cpp:103-144 | one channel's tick neither reads nor writes its access mode |
| `Pit.TickIgnoresAccessMode` | pit.cpp:167-172 | a whole tick neither reads nor writes any access mode, so setting LATCH before `tick()` equals setting it after |
| `Pit.EncodeControl` | pit.cpp:156-159 | definition, no contract of its own: the control byte a guest writes for a command; `PitProps.DecodeEncodeControl` and `PitProps.EncodeDecodeProgram` prove it inverse to `Pit.DecodeControl` |
| `Pit.ClocksFor` | pit.cpp:84-86 | definition, no contract of its own: `elapsed * PIT_CLOCK_FREQ / PIT_S_IN_NS` with the product wrapped to 64 bits; `PitProps.TickEffect` states the clocks every running channel takes |
| `Pit.LatchChannel` | pit.cpp:167-173 | definition, no contract of its own: the counter-latch step on the ticked channel; `PitProps.LatchControlEffect` states it |
| `Pit.ProgramChannel` | pit.cpp:167-185 | definition, no contract of its own: the programming step on one channel; `PitProps.ProgramControlEffect` states it |
| `Pit.ReadChannel` | pit.cpp:188-220 | definition, no contract of its own: `read_data` on one ticked channel; `PitProps.TwoByteReadSequence` and `PitProps.LatchReadSequence` state the bytes read |
| `Pit.StartChannel` | pit.cpp:250-270 | definition, no contract of its own: `start_counter` on one channel; `PitProps.StartChannelEffect` states it |
| `Pit.WriteChannel` | pit.cpp:222-248 | definition, no contract of its own: `write_data` on one channel; `PitProps.SingleByteWriteStarts` and `PitProps.TwoByteWriteSequence` state it |
| `Pit.PIT.constructor` | pit.cpp:7-22 | every channel idle: reload, counter and latch 0, OUT low, stopped, mode 0, LOBYTE access, cursor 0; `next_clock_time` is the current time |
| `Pit.PIT.TickCounter` | pit.cpp:103-144 | the channel array changes in channel `ch` only, to what `tick_counter` computes |
| `Pit.PIT.Tick` | pit.cpp:80-101 | the loop over the channels leaves the timer as `tick` defines it |
| `Pit.PIT.PollIrq` | pit.cpp:75-78 | `poll_irq` is a tick |
| `Pit.PIT.StartCounter` | pit.cpp:250-270 | the channel array changes in channel `ch` only, as `start_counter` defines |
| `Pit.PIT.LatchCounter` | pit.cpp:167-173 | access mode set to LATCH, then a tick, then the ticked counter copied into the latch |
| `Pit.PIT.WriteControl` | pit.cpp:154-186 | the new timer is what `write_control` defines for that byte and time |
| `Pit.PIT.ReadData` | pit.cpp:188-220 | the byte read and the new timer are what `read_data` defines |
| `Pit.PIT.WriteData` | pit.cpp:222-248 | the new timer is what `write_data` defines |
| `Pit.PIT.Write` | pit.cpp:29-50 | port dispatch: offsets 0 to 2 are data ports, offset 3 the control port, other sizes and offsets do nothing |
| `Pit.PIT.Read` | pit.cpp:52-73 | port dispatch: offsets 0 to 2 read a channel, the control port and other sizes leave the word alone |
| `PitProps.UnsupportedControlIsNoop` | pit.cpp:156-165 | a control byte is rejected exactly when it has the BCD bit, channel 3, mode 1 or a mode above 3, and a rejected byte leaves the whole timer unchanged |
| `PitProps.DecodeEncodeControl` | pit.cpp:156-159 | decoding the control byte built for a command gives the command back |
| `PitProps.EncodeDecodeProgram` | pit.cpp:156-159 | every programming byte is the encoding of the command it decodes to |
| `PitProps.ProgramControlEffect` | pit.cpp:167-185 | a programming command sets reload, counter and latch to 0, OUT high, stopped, with the new modes; it resets the cursor only for lo/hi access; other channels and the clock are untouched |
| `PitProps.LatchControlEffect` | pit.cpp:167-173 | a latch command ticks, copies the ticked counter into the latch and sets LATCH access; operating mode, reload, counter, OUT, running flag, cursor and other channels are those of the ticked timer |
| `PitProps.TickEffect` | pit.cpp:80-101 | past `next_clock_time`, every running channel takes the same `elapsed * 1193182 / 10^9` clocks, stopped ones stay, `next_clock_time` becomes `now + elapsed`; reloads, latches, modes and cursors never change |
| `PitProps.TickKeepsReloaded` | pit.cpp:93-98 | a tick keeps every running channel's reload non-zero, so the next tick is defined |
| `PitProps.TickSkipsElapsedTime` | pit.cpp:84-100 | after a tick at `now` the next one is due at `2*now - next_clock_time`; ticking again up to then changes nothing |
| `PitProps.TickChannelReloads` | pit.cpp:105-128 | reload branch: the new counter is `reload - (steps - current)`, lies in 1..reload and is congruent to `current - clocks`; mode 0 raises OUT and stops, mode 3 toggles OUT, mode 2 keeps both |
| `PitProps.TickChannelCounts` | pit.cpp:129-143 | counting branch: the counter drops by exactly `clocks % reload`, stays positive and congruent to `current - clocks`; OUT toggles exactly when in mode 3 the counter crosses `reload / 2` |
| `PitProps.Mode2KeepsOutput` | pit.cpp:116-134 | mode 2 never changes OUT and never stops |
| `PitProps.OneShotMissesWholePeriods` | pit.cpp:105-121 | since only `clocks % reload` counts, a mode 0 counter at 100 does not fire after 100 or 120 clocks |
| `PitProps.SquareWavePeriod` | pit.cpp:125-140 | mode 3 with reload 4, one clock at a time: OUT toggles twice per period and the channel is back at its start after four clocks |
| `PitProps.StartChannelEffect` | pit.cpp:250-270 | a running channel is left alone; a stopped one loads its counter from reload and starts, OUT low in mode 0 and high in modes 2 and 3, and nothing else changes |
| `PitProps.WithLowByteBytes` | pit.cpp:229 | replacing the low byte of the reload by `b` (`(r & 0xff00)` or `b`) keeps the high byte |
| `PitProps.WithHighByteBytes` | pit.cpp:233 | replacing the high byte of the reload by `b` (`(r & 0xff)` or `b << 8`) keeps the low byte |
| `PitProps.SingleByteWriteStarts` | pit.cpp:228-235 | in LOBYTE or HIBYTE access each write replaces that byte of the reload, keeps the other and starts the counter |
| `PitProps.TwoByteWriteSequence` | pit.cpp:236-246 | in lo/hi or LATCH access the first write replaces only the low byte and moves the cursor to 1; the second replaces the high byte, returns the cursor to 0 and starts the counter with reload `lo + 256 * hi` |
| `PitProps.TwoByteReadSequence` | pit.cpp:200-208 | in lo/hi access two reads give the counter's low then high byte and return the cursor to 0 |
| `PitProps.LatchReadSequence` | pit.cpp:209-218 | in LATCH access two reads give the latch's low then high byte; the second resets the cursor and clears the latch |
| `PitProps.StartSquareWaveOnChannel2` | test_pit.cpp:10-16 | bytes 0xb6, 0x98, 0x0a leave channel 2 running in mode 3 with reload and counter 0x0a98, OUT high, lo/hi access; channels 0 and 1 idle |
| `PitProps.PortWriteEffect` | pit.cpp:29-50 | single-byte writes to 0x40..0x42 are that channel's data writes and to 0x43 control writes; other sizes and ports leave the timer unchanged |
| `PitProps.PortReadEffect` | pit.cpp:52-73 | single-byte reads of 0x40..0x42 read that channel into the low byte of the word; the control port, other ports and other sizes leave the word and the timer unchanged |
| `PitProps.LatchedReadOfChannel2` | test_pit.cpp:19-22 | latching channel 2 and reading it twice gives the low and high byte of the counter at latch time, however the counter moves in between; the latch ends clear |
| `Cmos.TruncUint8` | cmos.cpp:106 | storing an `int` below 256 in a `uint8_t` keeps its value |
| `Cmos.Encode` | cmos.cpp:212-219 | definition, no contract of its own: `encode`; `CmosProps.BinaryModeIsIdentity`, `CmosProps.BcdRoundTrip` and `CmosProps.EncodeRoundTrip` state its meaning |
| `Cmos.Decode` | cmos.cpp:221-228 | definition, no contract of its own: `decode`; `CmosProps.BcdDecodeRoundTrip` and `CmosProps.EncodeRoundTrip` state that it inverts `Cmos.Encode` |
| `Cmos.EncodeHourAsWritten` | cmos.cpp:230-237 | definition, no contract of its own: `encode_hour` as written; `CmosProps.HourAsWrittenAgrees` and `CmosProps.EncodeHourAsWrittenMisencodesPm` state where it agrees with `Cmos.EncodeHour` and where not |
| `Cmos.DecodeHourAsWritten` | cmos.cpp:239-246 | definition, no contract of its own: `decode_hour` as written; `CmosProps.HourAsWrittenAgrees` and `CmosProps.DecodeHourAsWrittenMisreadsPm` state where it agrees with `Cmos.DecodeHour` and where not |
| `Cmos.EncodeHour` | cmos.cpp:230-237 | definition, no contract of its own: `encode_hour` corrected; `CmosProps.HourRoundTrip` and `CmosProps.PmHourIsFlagged` state its meaning |
| `Cmos.DecodeHour` | cmos.cpp:239-246 | definition, no contract of its own: `decode_hour` corrected; `CmosProps.HourRoundTrip` states that it inverts `Cmos.EncodeHour` |
| `Cmos.AddressWrite` | cmos.cpp:64-67 | definition, no contract of its own: `write_address`; `CmosProps.SelectThenRead` states its effect |
| `Cmos.DataWrite` | cmos.cpp:69-99 | definition, no contract of its own: `write_data`, with the corrected alarm-hour decoding; `CmosProps.DataWriteFrame`, `CmosProps.StatusARoundTrip`, `CmosProps.StatusBRoundTrip`, `CmosProps.StatusBSelectsModes`, `CmosProps.AlarmRoundTrip` and `CmosProps.AlarmHourRoundTrip` state its effect |
| `Cmos.DataRead` | cmos.cpp:101-210 | definition, no contract of its own: `read_data`, with the corrected hour encoding; `CmosProps.DataReadListed`, `CmosProps.ConstantRegisters`, `CmosProps.BootOrderRegisters`, `CmosProps.StatusCBits` and the clock-register lemmas state what it reads |
| `Cmos.PortWrite` | cmos.cpp:30-45 | definition, no contract of its own: `write`; `CmosProps.PortWriteEffect`, `CmosProps.PortWriteKeepsNoPending` and `CmosProps.SelectThenRead` state its effect |
| `Cmos.PortRead` | cmos.cpp:47-62 | definition, no contract of its own: `read`; `CmosProps.PortReadEffect` and `CmosProps.SelectThenRead` state what it stores |
| `Cmos.CMOS.constructor` | cmos.cpp:5-24 | address 0, nothing enabled or pending, binary 24-hour mode, alarm 00:00:00, divider 6 |
| `Cmos.CMOS.WriteAddress` | cmos.cpp:64-67 | only the address changes |
| `Cmos.CMOS.WriteData` | cmos.cpp:69-99 | the new registers are what `write_data` defines for the selected address, with the alarm hour decoded by the corrected `decode_hour` (see Left out) |
| `Cmos.CMOS.WriteAlarm` | cmos.cpp:73-82 | alarm second, minute or hour stores the decoded byte; the hour goes through the corrected `decode_hour` (see Left out) |
| `Cmos.CMOS.WriteStatusA` | cmos.cpp:84-87 | status A stores the low nibble as the rate divider |
| `Cmos.CMOS.WriteStatusB` | cmos.cpp:88-95 | status B stores bits 6, 5, 4 as the enables and bits 2, 1 as binary and 24-hour mode |
| `Cmos.CMOS.ReadData` | cmos.cpp:101-210 | the byte read is what `read_data` defines, with the hours encoded by the corrected `encode_hour` (see Left out); the method changes no field |
| `Cmos.CMOS.Write` | cmos.cpp:30-45 | port dispatch: 0x70 selects a register, 0x71 writes it (corrected alarm-hour decoding, see Left out), anything else does nothing |
| `Cmos.CMOS.Read` | cmos.cpp:47-62 | port dispatch: 0x71 reads the register into the low byte (corrected hour encoding, see Left out), 0x70 is write-only |
| `CmosProps.BinaryModeIsIdentity` | cmos.cpp:212-246 | in binary 24-hour mode all four conversions are the identity |
| `CmosProps.BcdRoundTrip` | cmos.cpp:212-228 | every value below 100 encodes to a byte with two decimal nibbles that decodes back to it |
| `CmosProps.BcdDecodeRoundTrip` | cmos.cpp:212-228 | every BCD byte decodes below 100 and encodes back to itself |
| `CmosProps.EncodeRoundTrip` | cmos.cpp:212-228 | in either mode a value the mode can hold survives encode then decode |
| `CmosProps.HourRoundTrip` | cmos.cpp:230-246 | every hour 0..23 survives the corrected hour encoding in all four modes; in 12-hour mode bit 7 is set exactly for hours after 12 |
| `CmosProps.PmHourIsFlagged` | cmos.cpp:230-237 | (corrected) in 12-hour mode hour `h` after 12 encodes as hour `h - 12` with bit 7 set; with `encode_hour` as written this holds in binary mode only |
| `CmosProps.BinaryTwelveHourMode` | cmos.cpp:230-246 | in binary 12-hour mode, hours 0..12 are stored unchanged and hours 13..23 as `h - 12` with bit 7 (0x80) set, as written and as corrected; `decode_hour` as written reads every hour back |
| `CmosProps.HourAsWrittenAgrees` | cmos.cpp:230-246 | the written and corrected hour conversions agree in binary mode, in 24-hour mode and on hours without the PM flag |
| `CmosProps.EncodeHourAsWrittenMisencodesPm` | cmos.cpp:236 | as written, 1 PM in BCD 12-hour mode encodes as 0xc9, not 0x81, and reads back as 55 |
| `CmosProps.DecodeHourAsWrittenMisreadsPm` | cmos.cpp:245 | as written, 0x84 (4 PM) decodes as 10 and 0x88 (8 PM) as 14, not 16 and 20 |
| `CmosProps.DataReadListed` | cmos.cpp:103-209 | a listed register reads the same whatever the caller's byte; an unlisted one leaves that byte untouched |
| `CmosProps.ConstantRegisters` | cmos.cpp:170-209 | status D reads 0x80, the disk types 0, the equipment byte 1, and registers 0x0e, 0x0f, 0x5b, 0x5c and 0x5d read 0 |
| `CmosProps.BootOrderRegisters` | cmos.cpp:196-203 | the boot-order registers 0x38 and 0x3d read 0x11 and 0x23 |
| `CmosProps.DataWriteFrame` | cmos.cpp:69-99 | a write to a register other than 0x01, 0x03, 0x05, 0x0a, 0x0b changes nothing; no write changes the address or a pending flag |
| `CmosProps.StatusARoundTrip` | cmos.cpp:84-147 | after writing `v` to status A it reads the low nibble of `v` with bit 5 (0x20) set |
| `CmosProps.StatusBRoundTrip` | cmos.cpp:88-156 | after writing `v` to status B it reads `v & 0x76` |
| `CmosProps.StatusBSelectsModes` | cmos.cpp:88-94 | bits 6, 5 and 4 of status B are the periodic, alarm and update interrupt enables, bit 2 is binary mode and bit 1 is 24-hour mode |
| `CmosProps.AlarmRoundTrip` | cmos.cpp:73-118 | alarm seconds and minutes read back what was written: any byte in binary mode, any BCD byte in BCD mode |
| `CmosProps.AlarmHourRoundTrip` | cmos.cpp:81-127 | (corrected) an hour written to the alarm in the current encoding is stored as that hour and reads back in that encoding; with the conversions as written the hour round-trips in binary or 24-hour mode only |
| `CmosProps.StatusCBits` | cmos.cpp:158-167 | status C: bit 7 is set exactly when an enabled interrupt is pending, bits 6..4 are the pending flags, bit 0 is set when any flag is clear |
| `CmosProps.PortWriteKeepsNoPending` | cmos.cpp:30-99 | no port write sets a pending flag |
| `CmosProps.StatusCWithoutPending` | cmos.cpp:158-167 | with nothing pending, status C reads 0x01 |
| `CmosProps.InitialRegisters` | cmos.cpp:5-24 | the device starts with nothing pending, status A reading 0x26 and status B reading 0x06 |
| `CmosProps.TimeRegisters` | cmos.cpp:104-123 | for a valid time, the seconds, minutes and hours registers decode to the time of day (hours: corrected); in binary or 24-hour mode the hours register is also what `encode_hour` as written gives and `decode_hour` as written reads back |
| `CmosProps.DateRegisters` | cmos.cpp:128-139 | for a valid time, the weekday, day and month registers decode to the date, the month counted from 1 |
| `CmosProps.YearRegisters` | cmos.cpp:141-194 | registers 0x09 and 0x32 decode to the year within the century and the century |
| `CmosProps.PortWriteEffect` | cmos.cpp:30-45 | single-byte writes to 0x70 select a register and to 0x71 write it; other sizes and ports change nothing |
| `CmosProps.PortReadEffect` | cmos.cpp:47-62 | only single-byte reads of 0x71 return data: the register in the low byte, the other three bytes kept |
| `CmosProps.SelectThenRead` | cmos.cpp:30-62 | selecting a register through 0x70 and then reading 0x71 gives that register |
| `Pic.CommandRead` | pic.cpp:62-69 | definition, no contract of its own: `read_command`; `PicProps.Ocw3Effect` and `PicProps.PortReadEffect` state what it reads |
| `Pic.DataRead` | pic.cpp:131-134 | definition, no contract of its own: `read_data`; `PicProps.MaskWrite` states that it returns the mask last written |
| `Pic.Push` | pic.cpp:160-163 | definition, no contract of its own: `push_irq`; `PicProps.PushEffect` states its effect |
| `Pic.PushPolled` | pic.cpp:138-144 | the device loop keeps the eight device lines; `PicProps.PushPolledEffect` states which lines become requested |
| `Pic.Scan` | pic.cpp:147-154 | a scan from a line below 8 stops at a line below 8; `PicProps.ScanFindsFirst` states which line |
| `Pic.Selected` | pic.cpp:146-154 | definition, no contract of its own: the line `poll_irq` selects; `PicProps.SelectedIsFirstRequest` states which line |
| `Pic.SelectAsWritten` | pic.cpp:156-157 | definition, no contract of its own: the step after the selection as written; `PicProps.SelectAsWrittenLosesService` and `PicProps.SelectAsWrittenKeepsService` state its effect |
| `Pic.Select` | pic.cpp:156-157 | definition, no contract of its own: the step after the selection, corrected; `PicProps.SelectEffect` and `PicProps.PollWithoutRequest` state its effect |
| `Pic.Poll` | pic.cpp:136-158 | `poll_irq` keeps the eight device lines; `PicProps.PollServesTopLine`, `PicProps.PushPolledEffect` and `PicProps.SelectEffect` state its effect |
| `Pic.EoiAsWritten` | pic.cpp:174-179 | definition, no contract of its own: the in-service register the non-advancing loop of commands 1 and 5 leaves; `PicProps.NonSpecificEoiAsWrittenEffect` states it |
| `Pic.Eoi` | pic.cpp:174-179 | definition, no contract of its own: the in-service register the corrected non-specific EOI leaves; `PicProps.FirstInServiceCleared` and `PicProps.EoiOfSingleLine` state it |
| `Pic.ClearFirst` | pic.cpp:174-179 | definition, no contract of its own: the corrected loop of commands 1 and 5; `PicProps.ClearFirstClearsScanned` states which line it clears |
| `Pic.Ocw2CommandAsWritten` | pic.cpp:165-210 | definition, no contract of its own: `ocw2` as written; `PicProps.NonSpecificEoiAsWrittenEffect` and `PicProps.NonSpecificEoiAsWrittenMissesLine` state commands 1 and 5 |
| `Pic.Ocw2Command` | pic.cpp:165-210 | definition, no contract of its own: `ocw2` with the corrected commands 1 and 5; `PicProps.NonSpecificEoiEffect`, `PicProps.SpecificEoiEffect`, `PicProps.RotationCommands` and `PicProps.Ocw2Keeps` state each command |
| `Pic.CommandWriteAsWritten` | pic.cpp:74-90 | definition, no contract of its own: `write_command` as C++ parses it; `PicProps.CommandWriteAsWrittenMisdecodes` states what it does with 0x20, 0x07 and 0x19 |
| `Pic.CommandWrite` | pic.cpp:71-96 | definition, no contract of its own: `write_command` with the tests read as `(value & M) == K`; `PicProps.Icw1Effect`, `PicProps.Ocw2Decode`, `PicProps.Ocw3Effect` and `PicProps.EveryCommandIsKnown` state each case |
| `Pic.DataWrite` | pic.cpp:98-129 | definition, no contract of its own: `write_data`; `PicProps.MaskWrite`, `PicProps.DataWriteCountsDown` and `PicProps.InitSequence` state its effect |
| `Pic.Connect` | pic.cpp:18-26 | `connect_io_device` keeps the eight device lines; `PicProps.ConnectEffect` states its effect |
| `Pic.PortWrite` | pic.cpp:28-43 | definition, no contract of its own: `write`; `PicProps.PortWriteEffect` states its dispatch |
| `Pic.PortRead` | pic.cpp:45-60 | definition, no contract of its own: `read`; `PicProps.PortReadEffect` states what it stores |
| `Pic.PIC.constructor` | pic.cpp:3-16 | nothing requested, masked or in service; data port reads the mask; idle; no device connected |
| `Pic.PIC.ConnectIoDevice` | pic.cpp:18-26 | line `n` gets or loses its device; numbers from 8 on change nothing |
| `Pic.PIC.ReadCommand` | pic.cpp:62-69 | reads the request register or, after OCW3 chose it, the in-service register |
| `Pic.PIC.ReadData` | pic.cpp:131-134 | reads the mask |
| `Pic.PIC.PushIrq` | pic.cpp:160-163 | the new registers are what `push_irq` defines |
| `Pic.PIC.PollIrq` | pic.cpp:136-158 | the device loop and then the selection step |
| `Pic.PIC.PollDevices` | pic.cpp:140-144 | the device loop pushes, in line order, each connected line whose device raises it |
| `Pic.PIC.ServeIrq` | pic.cpp:146-157 | the selected line goes in service and loses its request |
| `Pic.PIC.ServeLine` | pic.cpp:156-157 | sets the in-service bit of the selected line and clears its request bit; nothing else changes |
| `Pic.PIC.SelectIrq` | pic.cpp:147-154 | the rotating scan loop returns the line the scan specification selects |
| `Pic.PIC.EndOfInterrupt` | pic.cpp:173-201 | (corrected) the loop of commands 1 and 5, advanced and stopped at the first cleared line, leaves the in-service register the 8259A non-specific EOI defines; the code's loop does not advance (see Left out) |
| `Pic.PIC.SpecificEndOfInterrupt` | pic.cpp:184-208 | commands 3 and 7 leave the registers the OCW2 definition gives them |
| `Pic.PIC.SetRotation` | pic.cpp:168-204 | commands 0, 2, 4 and 6 leave the registers the OCW2 definition gives them |
| `Pic.PIC.Ocw2` | pic.cpp:165-210 | `ocw2` dispatches every command as the OCW2 definition says, commands 1 and 5 as the corrected non-specific EOI (see Left out) |
| `Pic.PIC.WriteCommand` | pic.cpp:71-96 | the command port decodes ICW1, OCW2 and OCW3, with the tests read as `(value & M) == K` and the corrected OCW2 commands 1 and 5 (see Left out) |
| `Pic.PIC.WriteData` | pic.cpp:98-129 | the data port: OCW1 when idle, otherwise the next initialisation word |
| `Pic.PIC.Write` | pic.cpp:28-43 | port dispatch: 0x20 commands (as corrected in `Pic.PIC.WriteCommand`), 0x21 data, other sizes and ports nothing |
| `Pic.PIC.Read` | pic.cpp:45-60 | port dispatch: 0x20 and 0x21 store the register into the whole word |
| `PicProps.ScanFindsFirst` | pic.cpp:147-154 | the loop stops at the first line, in rotating order, whose bit is set and none ranked before it is set; with no bit set it comes back to the start line |
| `PicProps.SelectedIsFirstRequest` | pic.cpp:146-154 | the selected line is the first requested one from `top_priority_irq`, or `top_priority_irq` when nothing is requested |
| `PicProps.PushEffect` | pic.cpp:160-163 | `push_irq(n)` makes line `n` requested exactly when it was requested or is unmasked; no other line or register changes; `n >= 8` does nothing |
| `PicProps.PushPolledEffect` | pic.cpp:138-144 | after the device loop a line is requested exactly when it was, or its device is connected, raises it and it is unmasked |
| `PicProps.SelectEffect` | pic.cpp:146-157 | the selection step clears only the selected request and adds only the selected line to in-service; no other register changes |
| `PicProps.PollServesTopLine` | pic.cpp:136-158 | a connected, raised, unmasked `top_priority_irq` line is put in service |
| `PicProps.PollWithoutRequest` | pic.cpp:146-157 | with nothing requested, the request register stays empty and `top_priority_irq` still goes in service |
| `PicProps.SelectAsWrittenLosesService` | pic.cpp:156 | as written, line 0 requested: its request is cleared and nothing goes in service |
| `PicProps.SelectAsWrittenKeepsService` | pic.cpp:156-157 | as written, the step never changes the in-service register |
| `PicProps.EveryCommandIsKnown` | pic.cpp:73-95 | under the code's masks every byte is ICW1, OCW2 or OCW3, so "unknown command" is unreachable |
| `PicProps.Icw1Effect` | pic.cpp:74-77 | ICW1 announces ICW4 when bit 0 is set and ICW3 when bit 1 is clear, and makes the data port expect ICW2; nothing else changes |
| `PicProps.Ocw2Decode` | pic.cpp:79-82 | OCW2 takes the line from bits 2..0 and the command from bits 7..5 |
| `PicProps.Ocw3Effect` | pic.cpp:84-92 | OCW3 with low bits 10 makes the command port read requests, 11 in-service, anything else keeps the choice; nothing else changes |
| `PicProps.SpecificEoiEffect` | pic.cpp:184-208 | commands 3 and 7 clear the in-service bit of line `irq` and no other, and turn rotation off or on |
| `PicProps.RotationCommands` | pic.cpp:167-204 | command 6 turns rotation on, 2 and numbers from 8 on do nothing, 0 and 4 turn it off and on only with automatic EOI |
| `PicProps.NonSpecificEoiEffect` | pic.cpp:173-201 | corrected commands 1 and 5 clear the in-service line where the rotating scan from `top_priority_irq` stops, and turn rotation off or on; nothing else changes |
| `PicProps.FirstInServiceCleared` | pic.cpp:174-179 | that line is the first one in service in rotating order |
| `PicProps.EoiOfSingleLine` | pic.cpp:173-201 | with a single line in service, corrected commands 1 and 5 end it |
| `PicProps.ClearFirstClearsScanned` | pic.cpp:174-179 | the corrected loop clears exactly the line the scan stops at |
| `PicProps.NonSpecificEoiCommand` | pic.cpp:173-201 | commands 1 and 5 change only the in-service register and the rotation flag |
| `PicProps.NonSpecificEoiAsWrittenEffect` | pic.cpp:173-201 | as written, commands 1 and 5 clear only the in-service bit of `top_priority_irq` and turn rotation off or on |
| `PicProps.NonSpecificEoiAsWrittenMissesLine` | pic.cpp:174-179 | with only line 1 in service, byte 0x20 leaves it in service as written and ends it as intended |
| `PicProps.CommandWriteAsWrittenMisdecodes` | pic.cpp:74-90 | as C++ parses the tests, 0x20 is an unknown command, 0x07 starts an initialisation and 0x19 does not announce ICW3 |
| `PicProps.MaskWrite` | pic.cpp:102-104 | when idle, a data byte becomes the mask, which `read_data` returns; nothing else changes |
| `PicProps.Pending` | pic.cpp:98-129 | the number of initialisation words still expected is at most 3 and is 0 exactly when idle |
| `PicProps.DataWriteCountsDown` | pic.cpp:98-129 | each data write during initialisation lowers the count by one; idle stays idle |
| `PicProps.Icw1Announces` | pic.cpp:74-77 | after ICW1 the port expects the 1 to 3 words the byte announces |
| `PicProps.Icw2Word` | pic.cpp:106-115 | ICW2 stores the vector base and changes only that and the status, which is not ICW2 afterwards |
| `PicProps.LaterInitWord` | pic.cpp:117-127 | ICW3 and ICW4 change only the status |
| `PicProps.LaterInitWords` | pic.cpp:106-127 | words after ICW2 each lower the count by one and change only the status |
| `PicProps.InitSequence` | pic.cpp:74-127 | after ICW1 the controller is idle again after exactly the announced number of words and not before; it keeps the first as the vector base and changes no other register |
| `PicProps.IdleWithinThree` | pic.cpp:98-129 | whatever it expects, the data port is idle after at most three writes |
| `PicProps.PortWriteEffect` | pic.cpp:28-43 | single-byte writes to 0x20 are commands and to 0x21 data; anything else changes nothing |
| `PicProps.PortReadEffect` | pic.cpp:45-60 | single-byte reads of 0x20 and 0x21 give the selected register and the mask as the whole word; anything else leaves it |
| `PicProps.ConnectEffect` | pic.cpp:18-26 | only line `n`'s device changes |
| `PicProps.InitialIsReachable` | pic.cpp:3-16 | the constructor starts with priority base 0 and automatic EOI off |
| `PicProps.ReachableIsClosed` | pic.cpp:28-210 | no write, push, poll or connection changes the priority base or automatic EOI |
| `PicProps.CommandWriteKeepsReachable` | pic.cpp:71-96 | the command port keeps them |
| `PicProps.Ocw2Keeps` | pic.cpp:165-210 | no OCW2 command writes the priority base, automatic EOI or the devices |
| `PicProps.DataWriteKeepsReachable` | pic.cpp:98-129 | the data port keeps them |
| `PicProps.AutomaticEoiCommandsAreNoops` | pic.cpp:168-192 | so in every state the device can reach, OCW2 commands 0 and 4 change nothing |

## Left out

- Host clocks: `get_real_time` (pit.cpp:146-152) is the parameter `now`, and `get_time_components` (cmos.cpp:248-256) is the `Tm` parameter. The mach clock service, `time` and `localtime` conversion are not modelled.
- Pit.TickState: requires a non-zero reload on every running channel when clocks are folded in (`TickDefined`), because `tick_counter` divides by the reload (pit.cpp:105, pit.cpp:110). The 8254's reading of 0 as 65536 is not modelled. `Tick`, `PollIrq`, `ReadData`, `LatchCounter`, `WriteControl` (latch commands) and the port functions inherit this precondition.
- Pit.PIT.PollIrq: `poll_irq` is declared `bool` but returns nothing (pit.cpp:75-78). Only its tick is modelled.
- The PIT has no IRQ 0 wiring to the PIC (a TODO at pit.cpp:112-114). No end-to-end interrupt property exists.
- The PIT's parallel per-channel arrays (pit.h:38-65) are one array of per-channel records. Each record is updated in place. The separate arrays are never aliased, so nothing is lost.
- BCD counting in the PIT is rejected by the code (pit.cpp:161), so it is not modelled.
- Pit.TickChannel: its own contract states only which fields change. The arithmetic is stated by `PitProps.TickChannelReloads` and `PitProps.TickChannelCounts`.
- The CMOS never raises a periodic, alarm or update interrupt: no code sets the pending flags. The model keeps the flags. `CmosProps.PortWriteKeepsNoPending` proves that they stay clear, and `CmosProps.StatusCWithoutPending` gives what status C then reads.
- Pic.PIC.PollDevices: the devices' own `poll_irq` (an `IODevice` virtual call, pic.cpp:140-144) is the set `raised`: a connected device on a line in `raised` calls `push_irq` for its own line once. A device that pushes other lines, pushes several times or changes other state is not modelled.
- `push_irq` with a number from 8 to 31 sets no bit, because `1 << n` is truncated to the 8-bit register. From 32 the shift is undefined; the model treats it as no bit as well.
- Special mask mode (OCW3 bits 6 and 5) is only reported by the source (pic.cpp:90-92).
- The command decoding uses the code's masks (0x8, 0xc, 0x4), not the 8259A's D4/D3 encoding. The model follows the code.
- `top_priority_irq` is never written, so the rotation flag has no effect on priority. `PicProps.ReachableIsClosed` proves that this is true of every state the device can reach.
- Cmos.DataRead: registers 0x04 and 0x05 read through the corrected `Cmos.EncodeHour`, not `encode_hour` as written (cmos.cpp:230-237). In BCD 12-hour mode hours 13 to 23 therefore read with the flag set on the BCD hour (13 reads 0x81, where the code gives 0xc9). In binary or 24-hour mode the two agree (`CmosProps.HourAsWrittenAgrees`).
- Cmos.DataWrite: register 0x05 stores the corrected `Cmos.DecodeHour`, not `decode_hour` as written (cmos.cpp:239-246). In BCD 12-hour mode a PM byte is decoded before 12 is added (0x84 stores 16, where the code stores 10). In binary or 24-hour mode, and for bytes without bit 7, the two agree.
- Cmos.CMOS.ReadData: inherits the corrected hour encoding of `Cmos.DataRead` for registers 0x04 and 0x05.
- Cmos.CMOS.WriteData: inherits the corrected hour decoding of `Cmos.DataWrite` for register 0x05.
- Cmos.CMOS.WriteAlarm: stores the alarm hour through the corrected `Cmos.DecodeHour` (see `Cmos.DataWrite`).
- Cmos.CMOS.Write: inherits the corrected alarm-hour decoding through port 0x71.
- Cmos.CMOS.Read: inherits the corrected hour encoding through port 0x71.
- CmosProps.PmHourIsFlagged: its first clause is about the corrected `EncodeHour`. For `encode_hour` as written it is proved in binary mode only, since it is false in BCD 12-hour mode.
- CmosProps.AlarmHourRoundTrip: its first two clauses are about the corrected conversions. As written, the round trip is proved only in binary or 24-hour mode; in BCD 12-hour mode PM hours do not round-trip.
- CmosProps.TimeRegisters: the hours clause is about the corrected conversions. The as-written clause is proved only in binary or 24-hour mode.
- Pic.PIC.Ocw2: commands 1 and 5 run the corrected non-specific EOI (`Pic.Ocw2Command`), not the code's non-advancing loop (`Pic.Ocw2CommandAsWritten`). With `isr` 0x02 and `top_priority_irq` 0, the code leaves `isr` at 0x02 and the model clears it to 0. The two readings agree when the only line in service is `top_priority_irq` (`PicProps.NonSpecificEoiAsWrittenEffect`, `PicProps.EoiOfSingleLine`).
- Pic.PIC.EndOfInterrupt: its loop advances `selected_irq` and stops after the first cleared line. The code's loop does neither (see `Pic.PIC.Ocw2`).
- Pic.PIC.WriteCommand: OCW2 bytes with command 1 or 5 (0x20, 0xa0 and the like) reach the corrected non-specific EOI (see `Pic.PIC.Ocw2`), and the tests are read as `(value & M) == K` (see Findings).
- Pic.PIC.Write: inherits both corrections of `Pic.PIC.WriteCommand` on port 0x20.
- `printf` diagnostics, `debug_status` dumps (including the division by the rate divider at cmos.cpp:277-278) and the destructors are not modelled.
- The UART (uart.cpp, uart.h), the debug output sink (debug_output.cpp, debug_output.h), guest memory (memory.cpp, memory.h) and the vCPU handle (cpu.h) are not part of this model. They are terminal I/O, a byte sink, host allocation and a foreign API.

## Findings

| source | as written | input that shows it | evidently intended | confidence | as-written member | corrected member |
|---|---|---|---|---|---|---|
| cmos.cpp:236 | `encode_hour` sets the PM flag (0x80) on `value % 12` before `encode`, so the flag is BCD-encoded together with the hour | BCD 12-hour mode, hour 13: stored as 0xc9 | encode `value % 12`, then set the PM flag: 0x81 | high; not executed | `Cmos.EncodeHourAsWritten`, `CmosProps.EncodeHourAsWrittenMisencodesPm` | `Cmos.EncodeHour`, `CmosProps.HourRoundTrip` |
| cmos.cpp:245 | `decode((value & ~0x80) + 12)` adds 12 to the BCD digits before decoding | BCD 12-hour mode, 0x84 (4 PM): decoded as 10 | `decode(value & ~0x80) + 12`: 16 | high; not executed | `Cmos.DecodeHourAsWritten`, `CmosProps.DecodeHourAsWrittenMisreadsPm` | `Cmos.DecodeHour`, `CmosProps.HourRoundTrip` |
| pic.cpp:156 | `isr != 1 << selected_irq;` is a comparison whose result is discarded | line 0 requested: the request is cleared, the in-service register stays 0 | an or-assignment of `1 << selected_irq` into `isr`: line 0 in service | high; not executed | `Pic.SelectAsWritten`, `PicProps.SelectAsWrittenLosesService` | `Pic.Select`, `PicProps.SelectEffect` |
| pic.cpp:173-201 | the OCW2 1/5 loop never advances `selected_irq`, so it tests the bit of `top_priority_irq` eight times | only line 1 in service, command byte 0x20: line 1 stays in service | the 8259A's non-specific EOI: clear the first in-service line in rotating order from `top_priority_irq` | medium; not executed | `Pic.Ocw2CommandAsWritten`, `PicProps.NonSpecificEoiAsWrittenMissesLine` | `Pic.Ocw2Command`, `PicProps.NonSpecificEoiEffect` |
| pic.cpp:74-90 | `value & M == K` parses as `value & (M == K)` | byte 0x20 (non-specific EOI) is an unknown command; 0x07 (OCW3, read in-service) starts an initialisation; 0x19 (ICW1) does not announce ICW3 | `(value & M) == K` | high; not executed | `Pic.CommandWriteAsWritten`, `PicProps.CommandWriteAsWrittenMisdecodes` | `Pic.CommandWrite`, `PicProps.Icw1Effect` |

The OCW2 1/5 row is rated "medium" because the loop's test-and-clear shape, once it advances, could also mean "clear every in-service bit". The model adopts the 8259A reading instead. The two readings agree whenever a single line is in service (`PicProps.EoiOfSingleLine`).
