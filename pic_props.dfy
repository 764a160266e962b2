/** Properties of the PIC model: which request the selection serves, what
    each command word does, the initialisation sequence, and the state the
    controller can never leave. */
module PicProps {
  import opened Machine
  import opened IoDevice
  import opened Pic

  // ---------------------------------------------------------------------
  // Line bits and the rotating priority order

  /** `Bit(n)` is `1 << n` for the eight lines and nothing beyond them. */
  lemma BitOfLine(n: uint8)
    ensures n < 8 ==> Bit(n) == (1 as uint8) << n
    ensures n >= 8 ==> Bit(n) == 0
  {
  }

  /** How many lines come before line `n` when the scan starts at `top`:
      0 for `top` itself, 7 for the line just before it. */
  function Rank(top: uint8, n: uint8): (r: uint8)
    ensures r < 8
  {
    (n - top) % 8
  }

  /** No line ranked before `r` has its bit set in `p`. */
  ghost predicate NoneBefore(p: uint8, top: uint8, r: uint8) {
    forall n: uint8 | n < 8 && Rank(top, n) < Rank(top, r) :: p & Bit(n) == 0
  }

  /** A byte with none of the eight line bits set is zero. */
  lemma AllLinesClear(p: uint8)
    requires forall n: uint8 | n < 8 :: p & Bit(n) == 0
    ensures p == 0
  {
    assert p & Bit(0) == 0 && p & Bit(1) == 0 && p & Bit(2) == 0 && p & Bit(3) == 0;
    assert p & Bit(4) == 0 && p & Bit(5) == 0 && p & Bit(6) == 0 && p & Bit(7) == 0;
  }

  /** Clearing the bit of line `n` clears that line and no other. */
  lemma ClearedLine(p: uint8, n: uint8)
    requires n < 8
    ensures forall m: uint8 | m < 8 :: ((p & !Bit(n)) & Bit(m) != 0 <==> p & Bit(m) != 0 && m != n)
  {
  }

  /** Setting the bit of line `n` sets that line and no other. */
  lemma SetLine(p: uint8, n: uint8)
    requires n < 8
    ensures forall m: uint8 | m < 8 :: ((p | Bit(n)) & Bit(m) != 0 <==> p & Bit(m) != 0 || m == n)
  {
  }

  /** Distinct lines have distinct ranks. */
  lemma RankInjective(top: uint8, n: uint8, m: uint8)
    requires top < 8 && n < 8 && m < 8 && Rank(top, n) == Rank(top, m)
    ensures n == m
  {
  }

  /** The line after `sel` in rotating order is ranked one further, unless
      `sel` is the last line of the round, after which the scan is back at
      `top`. */
  lemma RankStep(top: uint8, sel: uint8)
    requires top < 8 && sel < 8
    ensures Rank(top, sel) < 7 ==> Rank(top, (sel + 1) % 8) == Rank(top, sel) + 1
    ensures Rank(top, sel) == 7 ==> (sel + 1) % 8 == top
  {
  }

  /** Passing over a clear line keeps "nothing set so far". */
  lemma NoneBeforeStep(p: uint8, top: uint8, sel: uint8)
    requires top < 8 && sel < 8 && Rank(top, sel) < 7
    requires NoneBefore(p, top, sel) && p & Bit(sel) == 0
    ensures NoneBefore(p, top, (sel + 1) % 8)
  {
    RankStep(top, sel);
    forall n: uint8 | n < 8 && Rank(top, n) < Rank(top, (sel + 1) % 8)
      ensures p & Bit(n) == 0
    {
      if Rank(top, n) == Rank(top, sel) {
        RankInjective(top, n, sel);
      }
    }
  }

  /** When the last line of the round is clear as well, nothing is set. */
  lemma NoneAtAll(p: uint8, top: uint8, sel: uint8)
    requires top < 8 && sel < 8 && Rank(top, sel) == 7
    requires NoneBefore(p, top, sel) && p & Bit(sel) == 0
    ensures p == 0
  {
    forall n: uint8 | n < 8
      ensures p & Bit(n) == 0
    {
      if Rank(top, n) == 7 {
        RankInjective(top, n, sel);
      }
    }
    AllLinesClear(p);
  }

  /** The scan from line `sel`, which has `k` lines left to look at and
      has found nothing set before `sel`, stops at the first set line, or
      comes back to `top` when nothing is set. */
  lemma {:induction false} ScanFindsFirst(p: uint8, top: uint8, sel: uint8, k: uint8)
    requires top < 8 && sel < 8 && 1 <= k <= 8 && Rank(top, sel) + k == 8
    requires NoneBefore(p, top, sel)
    ensures var r := Scan(p, sel, k);
      && (p != 0 ==> p & Bit(r) != 0)
      && (p == 0 ==> r == top)
      && NoneBefore(p, top, r)
    decreases k as int
  {
    if p & Bit(sel) == 0 {
      RankStep(top, sel);
      if k == 1 {
        NoneAtAll(p, top, sel);
      } else {
        NoneBeforeStep(p, top, sel);
        ScanFindsFirst(p, top, (sel + 1) % 8, k - 1);
      }
    }
  }

  /** The loop of commands 1 and 5, started at line `sel` of the round
      from `top` with `k` lines left, clears exactly the line the scan
      stops at; the round's first line must be clear once the loop is
      past it. */
  lemma {:induction false} ClearFirstClearsScanned(p: uint8, top: uint8, sel: uint8, k: uint8)
    requires top < 8 && sel < 8 && 1 <= k <= 8 && Rank(top, sel) + k == 8
    requires sel != top ==> p & Bit(top) == 0
    ensures ClearFirst(p, sel, k) == p & !Bit(Scan(p, sel, k))
    decreases k as int
  {
    if p & Bit(sel) == 0 {
      RankStep(top, sel);
      if k > 1 {
        ClearFirstClearsScanned(p, top, (sel + 1) % 8, k - 1);
      }
    }
  }

  /** The line `poll_irq` selects: the first requested line in rotating
      order from `top_priority_irq`, or `top_priority_irq` itself when no
      line is requested. */
  lemma SelectedIsFirstRequest(s: PicState)
    requires s.topPriorityIrq < 8
    ensures var sel := Selected(s);
      && sel < 8
      && (s.irr != 0 ==> s.irr & Bit(sel) != 0)
      && (s.irr == 0 ==> sel == s.topPriorityIrq)
      && NoneBefore(s.irr, s.topPriorityIrq, sel)
  {
    ScanFindsFirst(s.irr, s.topPriorityIrq, s.topPriorityIrq, 8);
  }

  // ---------------------------------------------------------------------
  // Requests

  /** `push_irq(n)`: afterwards line `n` is requested exactly when it was
      before or it is not masked; no other line and no other register
      changes, and numbers beyond the eight lines change nothing. */
  lemma PushEffect(s: PicState, n: uint8)
    ensures var t := Push(s, n);
      && t == s.(irr := t.irr)
      && (n < 8 ==> (t.irr & Bit(n) != 0 <==> s.irr & Bit(n) != 0 || s.imr & Bit(n) == 0))
      && (forall m: uint8 | m < 8 && m != n :: t.irr & Bit(m) == s.irr & Bit(m))
      && (n >= 8 ==> t == s)
  {
  }

  /** The device loop of `poll_irq`: a line ends up requested exactly when
      it was, or its device is connected, raises it and it is not masked. */
  lemma {:induction false} PushPolledEffect(s: PicState, raised: set<uint8>, n: uint8)
    requires s.Valid() && n <= 8
    ensures var t := PushPolled(s, raised, n);
      && t == s.(irr := t.irr)
      && forall m: uint8 | m < 8 ::
           (t.irr & Bit(m) != 0 <==>
            s.irr & Bit(m) != 0 || (m < n && s.devices[m] && m in raised && s.imr & Bit(m) == 0))
    decreases n as int
  {
    if n > 0 {
      PushPolledEffect(s, raised, n - 1);
      var t := PushPolled(s, raised, n - 1);
      if s.devices[n - 1] && n - 1 in raised {
        PushEffect(t, n - 1);
      }
    }
  }

  /** The step after the selection: the selected line goes in service and
      loses its request; every other line keeps both bits, and no other
      register changes. */
  lemma SelectEffect(s: PicState)
    requires s.topPriorityIrq < 8
    ensures var (sel, t) := (Selected(s), Select(s));
      && t == s.(irr := t.irr, isr := t.isr)
      && (forall m: uint8 | m < 8 :: (t.irr & Bit(m) != 0 <==> s.irr & Bit(m) != 0 && m != sel))
      && (forall m: uint8 | m < 8 :: (t.isr & Bit(m) != 0 <==> s.isr & Bit(m) != 0 || m == sel))
  {
    SelectedIsFirstRequest(s);
    ClearedLine(s.irr, Selected(s));
    SetLine(s.isr, Selected(s));
  }

  /** When `top_priority_irq`'s device is connected, raises its line and
      the line is not masked, `poll_irq` serves that line. */
  lemma {:induction false} PollServesTopLine(s: PicState, raised: set<uint8>)
    requires s.Valid() && s.topPriorityIrq < 8
    requires s.devices[s.topPriorityIrq] && s.topPriorityIrq in raised
    requires s.imr & Bit(s.topPriorityIrq) == 0
    ensures var t := Poll(s, raised);
      && t.isr & Bit(s.topPriorityIrq) != 0
      && t.irr & Bit(s.topPriorityIrq) == 0
  {
    var top := s.topPriorityIrq;
    var p := PushPolled(s, raised, 8);
    PushPolledEffect(s, raised, 8);
    assert p.irr & Bit(top) != 0;
    SelectedIsFirstRequest(p);
    assert Rank(top, top) == 0;
    assert Selected(p) == top;
  }

  /** With nothing requested and nothing raised, `poll_irq` still puts
      `top_priority_irq` in service: the selection loop ends on it and the
      step after it does not test for a request. */
  lemma {:induction false} PollWithoutRequest(s: PicState)
    requires s.Valid() && s.topPriorityIrq < 8 && s.irr == 0
    ensures var t := Poll(s, {});
      && t.irr == 0
      && t.isr == s.isr | Bit(s.topPriorityIrq)
  {
    PushPolledEffect(s, {}, 8);
    var p := PushPolled(s, {}, 8);
    AllLinesClear(p.irr);
    SelectedIsFirstRequest(p);
  }

  /** pic.cpp:156 as written loses the in-service bit: with line 0
      requested, the request is cleared but nothing goes in service. */
  lemma SelectAsWrittenLosesService()
    ensures var s := INITIAL.(irr := 0x01);
      && Selected(s) == 0
      && SelectAsWritten(s).irr == 0 && SelectAsWritten(s).isr == 0
      && Select(s).irr == 0 && Select(s).isr == 0x01
  {
  }

  /** As written, the step never changes the in-service register. */
  lemma SelectAsWrittenKeepsService(s: PicState)
    ensures SelectAsWritten(s) == Select(s).(isr := s.isr)
  {
  }

  // ---------------------------------------------------------------------
  // Command port

  /** Every command byte is ICW1, OCW2 or OCW3 under the masks of the code,
      so the "unknown command" branch is never taken. */
  lemma EveryCommandIsKnown(value: uint8)
    ensures value & 0x8 == 0x8 || value & 0xc == 0x0 || value & 0xc == 0x4
  {
  }

  /** ICW1 announces ICW4 with bit 0 and ICW3 (cascade) with bit 1 clear,
      and makes the data port expect ICW2; nothing else changes. */
  lemma Icw1Effect(s: PicState, value: uint8)
    requires value & 0x8 != 0
    ensures var t := CommandWrite(s, value);
      && t.status == Icw2
      && (t.icw4Enabled <==> value & 0x1 == 0x1)
      && (t.icw3Enabled <==> value & 0x2 == 0x0)
      && t == s.(icw3Enabled := t.icw3Enabled, icw4Enabled := t.icw4Enabled, status := Icw2)
  {
  }

  /** OCW2 takes the line from bits 2..0 and the command from bits 7..5. */
  lemma Ocw2Decode(s: PicState, value: uint8)
    requires value & 0xc == 0x0
    ensures CommandWrite(s, value) == Ocw2Command(s, value & 0x7, value >> 5)
    ensures value & 0x7 < 8 && value >> 5 < 8
  {
  }

  /** OCW3 with low bits 10 makes `read_command` return the request
      register, with 11 the in-service register, and otherwise leaves the
      choice alone; it changes nothing else. */
  lemma Ocw3Effect(s: PicState, value: uint8)
    requires value & 0xc == 0x4
    ensures var t := CommandWrite(s, value);
      && t == s.(dataIsIrr := t.dataIsIrr)
      && CommandRead(t) == (if value & 0x3 == 0x2 then s.irr
                            else if value & 0x3 == 0x3 then s.isr
                            else CommandRead(s))
  {
  }

  /** OCW2 commands 3 and 7 clear the in-service bit of line `irq` and no
      other, and switch rotation off (3) or on (7). */
  lemma SpecificEoiEffect(s: PicState, irq: uint8, command: uint8)
    requires irq < 8 && (command == 3 || command == 7)
    ensures var t := Ocw2Command(s, irq, command);
      && t == s.(isr := t.isr, rotationEnabled := command == 7)
      && forall m: uint8 | m < 8 :: (t.isr & Bit(m) != 0 <==> s.isr & Bit(m) != 0 && m != irq)
  {
    assert Ocw2Command(s, irq, command).isr == s.isr & !Bit(irq);
    ClearedLine(s.isr, irq);
  }

  /** OCW2 command 6 switches rotation on and command 2 does nothing;
      commands 0 and 4 switch it off and on, but only with automatic EOI
      enabled; commands beyond 7 do nothing. */
  lemma RotationCommands(s: PicState, irq: uint8, command: uint8)
    requires command !in {1, 3, 5, 7}
    ensures var t := Ocw2Command(s, irq, command);
      && (command == 6 ==> t == s.(rotationEnabled := true))
      && (command == 0 || command == 4 ==>
            t == if s.aeoiEnabled then s.(rotationEnabled := command == 4) else s)
      && (command == 2 || command >= 8 ==> t == s)
  {
  }

  /** OCW2 commands 1 and 5, as intended: the line the scan from
      `top_priority_irq` stops at leaves service (the first line in
      service, by FirstInServiceCleared) and rotation is switched off (1)
      or on (5); nothing else changes. */
  lemma NonSpecificEoiEffect(s: PicState, irq: uint8, command: uint8)
    requires s.topPriorityIrq < 8 && (command == 1 || command == 5)
    ensures Ocw2Command(s, irq, command) ==
      s.(isr := s.isr & !Bit(Scan(s.isr, s.topPriorityIrq, 8)), rotationEnabled := command == 5)
  {
    NonSpecificEoiCommand(s, irq, command, Eoi(s));
    FirstInServiceCleared(s.isr, s.topPriorityIrq);
  }

  /** The intended loop of commands 1 and 5 on the in-service byte `p`:
      it clears the line the scan from `top` stops at, which is the first
      line in service when any is. */
  lemma FirstInServiceCleared(p: uint8, top: uint8)
    requires top < 8
    ensures var sel := Scan(p, top, 8);
      && (p != 0 ==> p & Bit(sel) != 0 && NoneBefore(p, top, sel))
      && ClearFirst(p, top, 8) == p & !Bit(sel)
  {
    ScanFindsFirst(p, top, top, 8);
    ClearFirstClearsScanned(p, top, top, 8);
  }

  /** With a single line in service, the intended commands 1 and 5 end it,
      wherever it lies in the rotating order. */
  lemma {:induction false} EoiOfSingleLine(s: PicState, n: uint8)
    requires s.topPriorityIrq < 8 && n < 8 && s.isr == Bit(n)
    ensures Eoi(s) == 0
  {
    FirstInServiceCleared(s.isr, s.topPriorityIrq);
    var sel := Scan(s.isr, s.topPriorityIrq, 8);
    assert s.isr & Bit(sel) != 0;
    ClearedLine(s.isr, sel);
    assert sel == n;
  }

  /** Commands 1 and 5 store the in-service register their loop leaves and
      switch rotation off (1) or on (5); nothing else changes. */
  lemma NonSpecificEoiCommand(s: PicState, irq: uint8, command: uint8, eoi: uint8)
    requires command == 1 || command == 5
    ensures Ocw2With(s, irq, command, eoi) == s.(isr := eoi, rotationEnabled := command == 5)
  {
  }

  /** OCW2 commands 1 and 5 as written clear the in-service bit of
      `top_priority_irq` only, whatever else is in service. */
  lemma NonSpecificEoiAsWrittenEffect(s: PicState, irq: uint8, command: uint8)
    requires s.topPriorityIrq < 8 && (command == 1 || command == 5)
    ensures var t := Ocw2CommandAsWritten(s, irq, command);
      && t == s.(isr := t.isr, rotationEnabled := command == 5)
      && forall m: uint8 | m < 8 ::
           (t.isr & Bit(m) != 0 <==> s.isr & Bit(m) != 0 && m != s.topPriorityIrq)
  {
    assert Ocw2CommandAsWritten(s, irq, command).isr == s.isr & !Bit(s.topPriorityIrq);
    ClearedLine(s.isr, s.topPriorityIrq);
  }

  /** The two readings differ: with only line 1 in service, the
      non-specific EOI (command byte 0x20) leaves it in service as written
      and ends it as intended. */
  lemma NonSpecificEoiAsWrittenMissesLine()
    ensures var s := INITIAL.(isr := 0x02);
      && Ocw2CommandAsWritten(s, 0, 1).isr == 0x02
      && Ocw2Command(s, 0, 1).isr == 0x00
      && CommandWrite(s, 0x20) == Ocw2Command(s, 0, 1)
  {
    var s := INITIAL.(isr := 0x02);
    ClearFirstClearsScanned(s.isr, 0, 0, 8);
  }

  /** The command byte as C++ parses it differs from the intended decoding:
      the non-specific EOI byte 0x20 is an unknown command, the OCW3 byte
      0x07, which selects the in-service register, starts an
      initialisation instead, and the ICW1 byte 0x19
      does not announce ICW3. */
  lemma CommandWriteAsWrittenMisdecodes()
    ensures var s := INITIAL.(isr := 0x01);
      && CommandWriteAsWritten(s, 0x20) == s && CommandWrite(s, 0x20).isr == 0x00
      && CommandWriteAsWritten(s, 0x07).status == Icw2 && CommandWriteAsWritten(s, 0x07).dataIsIrr
      && CommandWrite(s, 0x07).status == Idle && !CommandWrite(s, 0x07).dataIsIrr
      && !CommandWriteAsWritten(s, 0x19).icw3Enabled && CommandWrite(s, 0x19).icw3Enabled
  {
    var s := INITIAL.(isr := 0x01);
    ClearFirstClearsScanned(s.isr, 0, 0, 8);
  }

  // ---------------------------------------------------------------------
  // Data port

  /** OCW1: when idle, a data byte becomes the mask, which `read_data`
      returns; nothing else changes. */
  lemma MaskWrite(s: PicState, value: uint8)
    requires s.status == Idle
    ensures DataWrite(s, value) == s.(imr := value)
    ensures DataRead(DataWrite(s, value)) == value
  {
  }

  /** The data bytes `vs` written in order. */
  function DataWrites(s: PicState, vs: seq<uint8>): PicState
    decreases |vs|
  {
    if |vs| == 0 then s else DataWrites(DataWrite(s, vs[0]), vs[1..])
  }

  /** How many data bytes the ICW1 byte `icw1` announces: ICW2, ICW3 unless
      bit 1 (single) is set, ICW4 when bit 0 is set. */
  function InitLength(icw1: uint8): nat {
    1 + (if icw1 & 0x2 == 0 then 1 else 0) + (if icw1 & 0x1 != 0 then 1 else 0)
  }

  /** ICW2 is the vector base; only it and the status change, and the port
      does not expect ICW2 again. */
  lemma Icw2Word(s: PicState, value: uint8)
    requires s.status == Icw2
    ensures var t := DataWrite(s, value);
      t == s.(interruptVectorAddress := value, status := t.status) && t.status != Icw2
  {
    if s.icw3Enabled {
    } else if s.icw4Enabled {
    }
  }

  /** ICW3 and ICW4 change only the status, which does not go back to
      ICW2. */
  lemma LaterInitWord(s: PicState, value: uint8)
    requires s.status == Icw3 || s.status == Icw4
    ensures var t := DataWrite(s, value);
      t == s.(status := t.status) && t.status != Icw2
  {
    if s.status == Icw3 {
      if s.icw4Enabled {
      }
    }
  }

  /** Bytes written after ICW2 while the port still expects them: each is
      one fewer to expect and only the status changes. */
  lemma {:induction false} LaterInitWords(s: PicState, vs: seq<uint8>)
    requires s.status != Icw2 && |vs| <= Pending(s)
    ensures var t := DataWrites(s, vs);
      t == s.(status := t.status) && Pending(t) == Pending(s) - |vs|
    decreases |vs|
  {
    if |vs| > 0 {
      DataWriteCountsDown(s, vs[0]);
      LaterInitWord(s, vs[0]);
      LaterInitWords(DataWrite(s, vs[0]), vs[1..]);
    }
  }

  /** After ICW1 the data port takes exactly `InitLength(icw1)` bytes of
      initialisation: the controller is idle after the last of them and not
      before; the first is the vector base; the mask and every other
      register are untouched. */
  lemma {:induction false} InitSequence(s: PicState, icw1: uint8, vs: seq<uint8>)
    requires icw1 & 0x8 != 0 && 1 <= |vs| <= InitLength(icw1)
    ensures var t := DataWrites(CommandWrite(s, icw1), vs);
      && (t.status == Idle <==> |vs| == InitLength(icw1))
      && t == s.(icw3Enabled := icw1 & 0x2 == 0, icw4Enabled := icw1 & 0x1 != 0,
                 interruptVectorAddress := vs[0], status := t.status)
  {
    var u0 := CommandWrite(s, icw1);
    Icw1Effect(s, icw1);
    Icw1Announces(s, icw1);
    DataWriteCountsDown(u0, vs[0]);
    Icw2Word(u0, vs[0]);
    LaterInitWords(DataWrite(u0, vs[0]), vs[1..]);
  }

  /** How many initialisation bytes the data port still expects. */
  function Pending(s: PicState): (n: nat)
    ensures n <= 3
    ensures n == 0 <==> s.status == Idle
  {
    if s.status == Idle then 0
    else if s.status == Icw2 then 1 + (if s.icw3Enabled then 1 else 0) + (if s.icw4Enabled then 1 else 0)
    else if s.status == Icw3 then 1 + (if s.icw4Enabled then 1 else 0)
    else 1
  }

  /** Each data byte written during the initialisation is one fewer to
      expect; once idle, the port stays idle. */
  lemma DataWriteCountsDown(s: PicState, value: uint8)
    ensures Pending(DataWrite(s, value)) == if Pending(s) == 0 then 0 else Pending(s) - 1
  {
    if s.status == Icw2 || s.status == Icw3 {
      if s.icw3Enabled {
      } else if s.icw4Enabled {
      }
    }
  }

  /** ICW1 makes the data port expect the bytes it announces. */
  lemma Icw1Announces(s: PicState, icw1: uint8)
    requires icw1 & 0x8 != 0
    ensures Pending(CommandWrite(s, icw1)) == InitLength(icw1)
  {
  }

  /** Whatever it expects, the data port is idle after at most three
      bytes. */
  lemma IdleWithinThree(s: PicState, a: uint8, b: uint8, c: uint8)
    ensures DataWrite(DataWrite(DataWrite(s, a), b), c).status == Idle
  {
    DataWriteCountsDown(s, a);
    DataWriteCountsDown(DataWrite(s, a), b);
    DataWriteCountsDown(DataWrite(DataWrite(s, a), b), c);
  }

  // ---------------------------------------------------------------------
  // Ports

  /** `write`: single-byte writes to 0x20 are commands and to 0x21 data,
      with the low byte of the word; anything else changes nothing. */
  lemma PortWriteEffect(s: PicState, port: uint32, value: uint32, size: uint8)
    ensures var t := PortWrite(s, port, value, size);
      && (size == 1 && port == 0x20 ==> t == CommandWrite(s, DataByte(value)))
      && (size == 1 && port == 0x21 ==> t == DataWrite(s, DataByte(value)))
      && (size != 1 || (port != 0x20 && port != 0x21) ==> t == s)
  {
  }

  /** `read`: single-byte reads of 0x20 and 0x21 replace the whole word by
      the selected register and the mask; anything else leaves it. */
  lemma PortReadEffect(s: PicState, port: uint32, value: uint32, size: uint8)
    ensures var r := PortRead(s, port, value, size);
      && (size == 1 && port == 0x20 ==> r == (if s.dataIsIrr then s.irr else s.isr) as uint32)
      && (size == 1 && port == 0x21 ==> r == s.imr as uint32)
      && (size != 1 || (port != 0x20 && port != 0x21) ==> r == value)
  {
  }

  /** `connect_io_device`: line `n` gets or loses its device, the others
      keep theirs; numbers beyond the eight lines change nothing. */
  lemma ConnectEffect(s: PicState, n: uint8, connected: bool)
    requires s.Valid()
    ensures var t := Connect(s, n, connected);
      && t == s.(devices := t.devices)
      && (n < 8 ==> t.devices[n] == connected)
      && forall m: uint8 | m < 8 && m != n :: t.devices[m] == s.devices[m]
  {
  }

  // ---------------------------------------------------------------------
  // What no operation changes

  /** Nothing writes `top_priority_irq` or `aeoi_enabled`: from the
      constructor on, the scan always starts at line 0 and automatic EOI is
      off, so OCW2 commands 0 and 4 never do anything. */
  ghost predicate Reachable(s: PicState) {
    s.Valid() && s.topPriorityIrq == 0 && !s.aeoiEnabled
  }

  lemma InitialIsReachable()
    ensures Reachable(INITIAL)
  {
  }

  /** Every operation keeps the state reachable. */
  lemma ReachableIsClosed(s: PicState, port: uint32, value: uint32, size: uint8,
                          raised: set<uint8>, n: uint8, connected: bool)
    requires Reachable(s)
    ensures Reachable(PortWrite(s, port, value, size))
    ensures Reachable(Push(s, n))
    ensures Reachable(Poll(s, raised))
    ensures Reachable(Connect(s, n, connected))
  {
    if size == SINGLE_BYTE {
      CommandWriteKeepsReachable(s, DataByte(value));
      DataWriteKeepsReachable(s, DataByte(value));
    }
    PushPolledEffect(s, raised, 8);
  }

  lemma CommandWriteKeepsReachable(s: PicState, value: uint8)
    requires Reachable(s)
    ensures Reachable(CommandWrite(s, value))
  {
    if value & 0x8 != 0x8 && value & 0xc == 0x0 {
      Ocw2Keeps(s, value & 0x7, value >> 5, Eoi(s));
    }
  }

  /** No OCW2 command touches `top_priority_irq`, automatic EOI or the
      devices. */
  lemma Ocw2Keeps(s: PicState, irq: uint8, command: uint8, eoi: uint8)
    ensures var t := Ocw2With(s, irq, command, eoi);
      t.topPriorityIrq == s.topPriorityIrq && t.aeoiEnabled == s.aeoiEnabled && t.devices == s.devices
  {
  }

  lemma DataWriteKeepsReachable(s: PicState, value: uint8)
    requires Reachable(s)
    ensures Reachable(DataWrite(s, value))
  {
    match s.status {
      case Idle =>
      case Icw2 =>
      case Icw3 =>
      case Icw4 =>
    }
  }

  /** In a reachable state OCW2 commands 0 and 4 change nothing. */
  lemma AutomaticEoiCommandsAreNoops(s: PicState, irq: uint8, command: uint8)
    requires Reachable(s) && (command == 0 || command == 4)
    ensures Ocw2Command(s, irq, command) == s
  {
  }
}
