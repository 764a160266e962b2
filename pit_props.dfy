/** Properties of the PIT model: what a control word, a data access, a
    counter start and a tick do to the timer, and the round trip of the
    control word encoding. */
module PitProps {
  import opened Machine
  import opened IoDevice
  import opened Pit

  // ---------------------------------------------------------------------
  // Control word

  /** A control byte is rejected exactly when it asks for BCD counting,
      channel 3, mode 1 or modes 4..7; a rejected byte changes nothing. */
  lemma UnsupportedControlIsNoop(s: PitState, value: uint8, now: uint64)
    requires s.Valid()
    ensures DecodeControl(value).Unsupported? <==>
      (value & 0x1 != 0 || (value >> 6) & 0x3 == 3 ||
       (value >> 1) & 0x7 == 1 || (value >> 1) & 0x7 > 3)
    ensures DecodeControl(value).Unsupported? ==> ControlWriteState(s, value, now) == s
  {
  }

  /** Decoding the byte EncodeControl builds gives the command back. */
  lemma {:induction false} DecodeEncodeControl(c: Control)
    requires c.LatchCount? || c.Program? ==> 0 <= c.channel < PIT_CH_COUNT
    requires c.Program? ==> c.access != Latch
    ensures DecodeControl(EncodeControl(c)) == c
  {
    match c
    case Unsupported =>
    case LatchCount(ch) =>
      var v := EncodeControl(c);
      assert v & 0x1 == 0 && (v >> 4) & 0x3 == 0 && (v >> 1) & 0x7 == 0;
      assert (v >> 6) & 0x3 == ch as uint8;
    case Program(ch, mode, access) =>
      var v := EncodeControl(c);
      assert v & 0x1 == 0;
      assert (v >> 1) & 0x7 == OperatingModeBits(mode);
      assert (v >> 4) & 0x3 == AccessModeBits(access);
      assert (v >> 6) & 0x3 == ch as uint8;
  }

  /** Every byte that programs a channel is the encoding of its command:
      the control word has no bits that a programming command ignores. */
  lemma EncodeDecodeProgram(value: uint8)
    requires DecodeControl(value).Program?
    ensures EncodeControl(DecodeControl(value)) == value
  {
  }

  /** A programming command (access mode other than latch) resets its
      channel: reload, counter and latch 0, OUT high, stopped, with the new
      operating and access modes; lo/hi access also resets the byte cursor.
      The other channels and the clock are untouched. */
  lemma ProgramControlEffect(s: PitState, value: uint8, now: uint64)
    requires s.Valid() && DecodeControl(value).Program?
    ensures var Program(ch, mode, access) := DecodeControl(value);
      var t := ControlWriteState(s, value, now);
      && t.Valid()
      && t.nextClockTime == s.nextClockTime
      && (forall j | 0 <= j < PIT_CH_COUNT && j != ch :: t.channels[j] == s.channels[j])
      && t.channels[ch].reload == 0 && t.channels[ch].current == 0
      && t.channels[ch].latched == 0
      && t.channels[ch].output && !t.channels[ch].running
      && t.channels[ch].operatingMode == mode && t.channels[ch].accessMode == access
      && t.channels[ch].accessByte == (if access == HiLoByte then 0 else s.channels[ch].accessByte)
  {
  }

  /** A counter-latch command ticks the timer, then copies that channel's
      counter into its latch and switches it to LATCH access; nothing else
      of the ticked timer changes. */
  lemma LatchControlEffect(s: PitState, value: uint8, now: uint64)
    requires s.Valid() && DecodeControl(value).LatchCount? && TickDefined(s, now)
    ensures var ch := DecodeControl(value).channel;
      var (t, u) := (TickState(s, now), ControlWriteState(s, value, now));
      && u.Valid()
      && u.nextClockTime == t.nextClockTime
      && (forall j | 0 <= j < PIT_CH_COUNT && j != ch :: u.channels[j] == t.channels[j])
      && u.channels[ch].latched == t.channels[ch].current
      && u.channels[ch].accessMode == Latch
      && u.channels[ch] == t.channels[ch].(latched := u.channels[ch].latched, accessMode := Latch)
  {
  }

  // ---------------------------------------------------------------------
  // Tick

  /** `tick` folds in clocks only past `next_clock_time`. Then every running
      channel advances by the same number of clocks, the others are left
      as they are, and `next_clock_time` becomes `now + elapsed`. Ticking
      never touches reload values, latches, modes or byte cursors. */
  lemma TickEffect(s: PitState, now: uint64)
    requires s.Valid() && TickDefined(s, now)
    ensures now <= s.nextClockTime ==> TickState(s, now) == s
    ensures now > s.nextClockTime ==>
      var (t, elapsed) := (TickState(s, now), now - s.nextClockTime);
      && t.nextClockTime == Wrap64(now as int + elapsed as int)
      && forall ch | 0 <= ch < PIT_CH_COUNT ::
           t.channels[ch] == (if s.channels[ch].running
                              then TickChannel(s.channels[ch], ClocksFor(elapsed))
                              else s.channels[ch])
    ensures forall ch | 0 <= ch < PIT_CH_COUNT ::
      var (c, d) := (s.channels[ch], TickState(s, now).channels[ch]);
      && d.reload == c.reload && d.latched == c.latched
      && d.operatingMode == c.operatingMode && d.accessMode == c.accessMode
      && d.accessByte == c.accessByte
  {
  }

  /** A tick keeps every running channel's reload non-zero, so a later tick
      is defined again. */
  lemma TickKeepsReloaded(s: PitState, now: uint64)
    requires s.Valid() && RunningReloaded(s)
    ensures RunningReloaded(TickState(s, now))
  {
    var t := TickState(s, now);
    forall ch | 0 <= ch < PIT_CH_COUNT && t.channels[ch].running
      ensures t.channels[ch].reload > 0
    {
      TickEffect(s, now);
    }
  }

  /** After a tick at `now` the next one is due only past `now + elapsed`
      (when that does not wrap): a second tick at `now` or just after it
      changes nothing, so the time after `now` up to `now + elapsed` is
      never folded into the counters. */
  lemma {:induction false} TickSkipsElapsedTime(s: PitState, now: uint64, later: uint64)
    requires s.Valid() && TickDefined(s, now) && now > s.nextClockTime
    requires now as int + (now - s.nextClockTime) as int < TWO_TO_64
    requires now <= later <= TickState(s, now).nextClockTime
    ensures TickState(s, now).nextClockTime as int == 2 * now as int - s.nextClockTime as int
    ensures TickDefined(TickState(s, now), later)
    ensures TickState(TickState(s, now), later) == TickState(s, now)
  {
    TickEffect(s, now);
  }

  // ---------------------------------------------------------------------
  // tick_counter

  /** The reload branch of `tick_counter` (the counter would reach or pass
      zero): as `steps - current` is below the reload value, C++'s `%`
      leaves it alone and the new counter is `reload - (steps - current)`,
      which lies in 1..reload and is congruent to `current - clocks` modulo
      the reload value. Mode 0 raises OUT and stops, mode 3 toggles OUT,
      mode 2 keeps it. */
  lemma {:induction false} TickChannelReloads(c: Channel, clocks: uint64)
    requires c.reload > 0 && c.current as int <= clocks as int % c.reload as int
    ensures var r := TickChannel(c, clocks);
      var steps := clocks as int % c.reload as int;
      && r.current as int == c.reload as int - (steps - c.current as int)
      && 0 < r.current <= c.reload
      && (r.current as int - (c.current as int - clocks as int)) % c.reload as int == 0
      && (c.operatingMode == Mode0 ==> r.output && !r.running)
      && (c.operatingMode == Mode2 ==> r.output == c.output && r.running == c.running)
      && (c.operatingMode == Mode3 ==> r.output == !c.output && r.running == c.running)
  {
    var reload := c.reload as int;
    var steps := clocks as int % reload;
    var d := c.current as int - steps;
    SmallRemainder(-d, reload);
    assert CRem(d, reload) == d;
    var q := clocks as int / reload;
    assert TickChannel(c, clocks).current as int - (c.current as int - clocks as int) == reload * (q + 1);
    ModMultiple(q + 1, reload);
  }

  /** A remainder of a value already below the divisor is the value. */
  lemma SmallRemainder(x: int, k: int)
    requires 0 <= x < k
    ensures x % k == x
  {
  }

  /** The counting branch of `tick_counter`: the counter drops by exactly
      `clocks % reload` and stays positive, congruent to `current - clocks`
      modulo the reload value; OUT changes only in mode 3, and only when the
      counter crosses `reload / 2`. */
  lemma {:induction false} TickChannelCounts(c: Channel, clocks: uint64)
    requires c.reload > 0 && c.current as int > clocks as int % c.reload as int
    ensures var r := TickChannel(c, clocks);
      var steps := clocks as int % c.reload as int;
      && r.current as int == c.current as int - steps
      && r.current > 0 && r.running == c.running
      && (r.current as int - (c.current as int - clocks as int)) % c.reload as int == 0
      && (r.output != c.output <==>
            c.operatingMode == Mode3 &&
            c.current as int > c.reload as int / 2 && r.current as int <= c.reload as int / 2)
  {
    var reload := c.reload as int;
    var q := clocks as int / reload;
    assert clocks as int == reload * q + clocks as int % reload;
    var r := TickChannel(c, clocks);
    assert r.current as int - (c.current as int - clocks as int) == reload * q;
    ModMultiple(q, reload);
  }

  /** Mode 2 (rate generator) never changes OUT, and it never stops. */
  lemma Mode2KeepsOutput(c: Channel, clocks: uint64)
    requires c.reload > 0 && c.operatingMode == Mode2
    ensures TickChannel(c, clocks).output == c.output
    ensures TickChannel(c, clocks).running == c.running
  {
  }

  /** `k * m` is a multiple of `k`. */
  lemma ModMultiple(m: int, k: int)
    requires k > 0
    ensures (k * m) % k == 0
  {
    var q, r := (k * m) / k, (k * m) % k;
    assert k * (m - q) == r;
    if m - q >= 1 {
      MulAtLeast(m - q, k);
      assert false;
    } else if m - q <= -1 {
      MulAtLeast(q - m, k);
      assert false;
    }
  }

  lemma MulAtLeast(a: int, k: int)
    requires a >= 1 && k > 0
    ensures k * a >= k
  {
  }

  /** Only `clocks % reload` counts in a tick, so a one-shot (mode 0)
      counter with 100 counts left does not fire when 100 clocks or 120
      clocks elapse between two accesses, although its count ran out. */
  lemma OneShotMissesWholePeriods()
    ensures var c := Channel(100, 100, 0, false, true, Mode0, LoByte, 0);
      TickChannel(c, 100) == c && !TickChannel(c, 120).output
  {
  }

  /** A square wave (mode 3) with reload 4, ticked one clock at a time,
      toggles OUT twice per period and is back at its start after four
      clocks. */
  lemma SquareWavePeriod()
    ensures var c := Channel(4, 4, 0, true, true, Mode3, HiLoByte, 0);
      var c1 := TickChannel(c, 1);
      var c2 := TickChannel(c1, 1);
      var c3 := TickChannel(c2, 1);
      var c4 := TickChannel(c3, 1);
      && c1.output && !c2.output && !c3.output && c4.output
      && c4 == c
  {
  }

  // ---------------------------------------------------------------------
  // Counter start and data access

  /** `start_counter` leaves a running channel alone; a stopped one loads
      its counter from the reload value and starts, OUT low in mode 0 and
      high in modes 2 and 3. Nothing else changes. */
  lemma StartChannelEffect(c: Channel)
    ensures c.running ==> StartChannel(c) == c
    ensures !c.running ==>
      var r := StartChannel(c);
      && r.running && r.current == c.reload
      && r.output == (c.operatingMode != Mode0)
      && r == c.(current := r.current, running := true, output := r.output)
  {
  }

  /** The low byte of a 16-bit value and its high byte replaced one at a time. */
  lemma {:induction false} WithLowByteBytes(r: uint16, b: uint8)
    ensures LowByte(WithLowByte(r, b)) == b && HighByte(WithLowByte(r, b)) == HighByte(r)
  {
    ByteInRange(b);
    DigitsBase256(r as int / 256, b as int);
    assert WithLowByte(r, b) as int == 256 * (r as int / 256) + b as int;
  }

  lemma {:induction false} WithHighByteBytes(r: uint16, b: uint8)
    ensures HighByte(WithHighByte(r, b)) == b && LowByte(WithHighByte(r, b)) == LowByte(r)
  {
    ByteInRange(b);
    DigitsBase256(b as int, r as int % 256);
    assert WithHighByte(r, b) as int == 256 * b as int + r as int % 256;
  }

  lemma ByteInRange(b: uint8)
    ensures 0 <= b as int < 256
  {
  }

  /** The base-256 digits of `256 * a + x`. */
  lemma DigitsBase256(a: int, x: int)
    requires 0 <= x < 256
    ensures (256 * a + x) % 256 == x && (256 * a + x) / 256 == a
  {
  }

  /** In LOBYTE or HIBYTE access every data write replaces that byte of the
      reload value and starts the counter. */
  lemma SingleByteWriteStarts(c: Channel, value: uint8)
    requires c.accessMode == LoByte || c.accessMode == HiByte
    ensures var r := WriteChannel(c, value);
      && r.running && r.accessByte == c.accessByte
      && (c.accessMode == LoByte ==> LowByte(r.reload) == value && HighByte(r.reload) == HighByte(c.reload))
      && (c.accessMode == HiByte ==> HighByte(r.reload) == value && LowByte(r.reload) == LowByte(c.reload))
  {
    WithLowByteBytes(c.reload, value);
    WithHighByteBytes(c.reload, value);
  }

  /** In lo/hi (or LATCH) access the first data write replaces only the low
      byte of the reload value and moves the cursor to 1; the second
      replaces the high byte, moves the cursor back to 0 and starts the
      counter, whose reload is then `lo + 256 * hi`. */
  lemma TwoByteWriteSequence(c: Channel, lo: uint8, hi: uint8)
    requires c.accessMode == HiLoByte || c.accessMode == Latch
    requires c.accessByte == 0
    ensures var c1 := WriteChannel(c, lo);
      var c2 := WriteChannel(c1, hi);
      && c1 == c.(reload := c1.reload, accessByte := 1)
      && LowByte(c1.reload) == lo && HighByte(c1.reload) == HighByte(c.reload)
      && c2 == StartChannel(c1.(reload := c2.reload, accessByte := 0))
      && c2.reload as int == lo as int + 256 * hi as int
      && c2.running && c2.accessByte == 0
  {
    WithLowByteBytes(c.reload, lo);
    var c1 := WriteChannel(c, lo);
    assert c1.reload == WithLowByte(c.reload, lo);
    ByteInRange(lo);
    DigitsBase256(c.reload as int / 256, lo as int);
    WithHighByteBytes(c1.reload, hi);
  }

  /** In lo/hi access two reads return the counter's low byte and then its
      high byte, and leave the cursor where it was. */
  lemma TwoByteReadSequence(c: Channel, v1: uint8, v2: uint8)
    requires c.accessMode == HiLoByte && c.accessByte == 0
    ensures var (c1, b1) := ReadChannel(c, v1);
      var (c2, b2) := ReadChannel(c1, v2);
      && c1.accessByte == 1 && b1 == LowByte(c.current)
      && b2 == HighByte(c.current) && c2 == c
  {
  }

  /** In LATCH access two reads return the latch's low byte and then its
      high byte; the second read resets the cursor and clears the latch. */
  lemma LatchReadSequence(c: Channel, v1: uint8, v2: uint8)
    requires c.accessMode == Latch && c.accessByte == 0
    ensures var (c1, b1) := ReadChannel(c, v1);
      var (c2, b2) := ReadChannel(c1, v2);
      && c1 == c.(accessByte := 1) && b1 == LowByte(c.latched)
      && b2 == HighByte(c.latched) && c2 == c.(latched := 0)
  {
  }

  // ---------------------------------------------------------------------
  // The sequence of test_pit.cpp

  /** Control byte 0xb6 to port 0x43, then 0x98 and 0x0a to port 0x42,
      leave channel 2 running in mode 3 (square wave) with reload and
      counter 0x0a98, OUT high, lo/hi access; channels 0 and 1 stay idle. */
  lemma StartSquareWaveOnChannel2(t0: uint64, now: uint64)
    ensures var s1 := PortWriteState(Initial(t0), 0x43, 0xb6, 1, now);
      var s2 := PortWriteState(s1, 0x42, 0x98, 1, now);
      var s3 := PortWriteState(s2, 0x42, 0x0a, 1, now);
      && s3.channels[2] == Channel(0x0a98, 0x0a98, 0, true, true, Mode3, HiLoByte, 0)
      && s3.channels[0] == IDLE_CHANNEL && s3.channels[1] == IDLE_CHANNEL
      && s3.nextClockTime == t0
  {
    assert DecodeControl(0xb6) == Program(2, Mode3, HiLoByte);
    var s1 := PortWriteState(Initial(t0), 0x43, 0xb6, 1, now);
    assert s1.channels[2] == Channel(0, 0, 0, true, false, Mode3, HiLoByte, 0);
    var s2 := PortWriteState(s1, 0x42, 0x98, 1, now);
    assert s2.channels[2] == Channel(0x98, 0, 0, true, false, Mode3, HiLoByte, 1);
  }

  /** One round of the test loop: latch channel 2 (0x80 to port 0x43) and
      read port 0x42 twice. The two bytes read are the low and the high byte
      of the counter at the time of the latch, however the counter moves
      between the reads; afterwards the latch is clear and the cursor 0. */
  lemma {:induction false} LatchedReadOfChannel2(s: PitState, n1: uint64, n2: uint64, n3: uint64,
                                                 w1: uint32, w2: uint32)
    requires s.Valid() && RunningReloaded(s) && s.channels[2].accessByte == 0
    ensures var s1 := PortWriteState(s, 0x43, 0x80, 1, n1);
      var (s2, r1) := PortReadResult(s1, 0x42, w1, 1, n2);
      var (s3, r2) := PortReadResult(s2, 0x42, w2, 1, n3);
      var count := TickState(s, n1).channels[2].current;
      && DataByte(r1) == LowByte(count) && DataByte(r2) == HighByte(count)
      && s3.channels[2].latched == 0 && s3.channels[2].accessByte == 0
      && s3.channels[2].accessMode == Latch
  {
    assert DecodeControl(0x80) == LatchCount(2);
    var t := TickState(s, n1);
    TickEffect(s, n1);
    TickKeepsReloaded(s, n1);
    var s1 := PortWriteState(s, 0x43, 0x80, 1, n1);
    LatchControlEffect(s, 0x80, n1);
    assert s1.channels[2].latched == t.channels[2].current;
    assert RunningReloaded(s1);
    TickEffect(s1, n2);
    TickKeepsReloaded(s1, n2);
    var u1 := TickState(s1, n2);
    assert u1.channels[2].accessMode == Latch && u1.channels[2].accessByte == 0;
    assert u1.channels[2].latched == t.channels[2].current;
    var (s2, r1) := PortReadResult(s1, 0x42, w1, 1, n2);
    assert s2 == u1.With(2, u1.channels[2].(accessByte := 1));
    assert RunningReloaded(s2);
    TickEffect(s2, n3);
    var u2 := TickState(s2, n3);
    assert u2.channels[2].accessMode == Latch && u2.channels[2].accessByte == 1;
    assert u2.channels[2].latched == t.channels[2].current;
  }

  // ---------------------------------------------------------------------
  // Ports

  /** `write`: single-byte writes to ports 0x40..0x42 go to the channels'
      data ports and to 0x43 to the control port; other sizes and ports
      leave the timer unchanged. */
  lemma PortWriteEffect(s: PitState, port: uint32, value: uint32, size: uint8, now: uint64)
    requires s.Valid() && WriteDefined(s, port, value, size, now)
    ensures var t := PortWriteState(s, port, value, size, now);
      && (size == 1 && port == 0x40 ==> t == DataWriteState(s, 0, DataByte(value)))
      && (size == 1 && port == 0x41 ==> t == DataWriteState(s, 1, DataByte(value)))
      && (size == 1 && port == 0x42 ==> t == DataWriteState(s, 2, DataByte(value)))
      && (size == 1 && port == 0x43 ==> t == ControlWriteState(s, DataByte(value), now))
      && (size != 1 || port < 0x40 || port > 0x43 ==> t == s)
  {
  }

  /** `read`: single-byte reads of ports 0x40..0x42 read that channel into
      the low byte; the control port, other ports and other sizes leave
      the word and the timer unchanged. */
  lemma PortReadEffect(s: PitState, port: uint32, value: uint32, size: uint8, now: uint64)
    requires s.Valid() && ReadDefined(s, port, size, now)
    ensures size != 1 || port < 0x40 || port > 0x42 ==> PortReadResult(s, port, value, size, now) == (s, value)
    ensures size == 1 && 0x40 <= port <= 0x42 ==>
      var r := DataReadResult(s, (port - 0x40) as int, now, DataByte(value));
      PortReadResult(s, port, value, size, now) == (r.0, WithDataByte(value, r.1))
  {
  }
}
