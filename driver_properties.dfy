/**
 * What each operation of the SSD1675 driver puts on the wire, stated as the
 * exact sequence of handle calls it issues (`IssuesUntilFailure`), or as the
 * exact list of SPI transactions it makes, and the lemmas proving that the
 * step programs of module InkyDriver (and so the methods of `InkyPhat`) do so.
 */
module DriverProperties {
  import opened Hal
  import opened Protocol
  import opened InkyDriver

  /** A command byte on the wire: DC low, CS low, the one byte, CS high. */
  function CommandFrame(command: byte): seq<Event>
  {
    [SetPin(Dc, Low), SetPin(Cs, Low), SpiWrite([command]), SetPin(Cs, High)]
  }

  /** A payload on the wire: DC high, CS low, the whole payload in one write, CS high. */
  function DataFrame(data: seq<byte>): seq<Event>
  {
    [SetPin(Dc, High), SetPin(Cs, Low), SpiWrite(data), SetPin(Cs, High)]
  }

  /** The reset pulse on the wire: RESET low, 100 ms, RESET high, 100 ms. */
  function ResetFrame(): seq<Event>
  {
    [SetPin(Rst, Low), DelayMs(100), SetPin(Rst, High), DelayMs(100)]
  }

  /** The address counter commands on the wire: X counter with `[x]`, Y counter with `y` as two bytes, low first. */
  function RamAddressFrame(x: byte, y: u16): seq<Event>
  {
    CommandFrame(0x4E) + DataFrame([x]) + CommandFrame(0x4F) + DataFrame([y % 0x100, y / 0x100])
  }

  /** `send_command(c)` issues exactly DC low, CS low, the write of `[c]`, CS high, up to the first failing call. */
  lemma SendCommandIssues<S, G>(plan: Plan<S, G>, command: byte, h: Hw)
    ensures IssuesUntilFailure(plan, h, Exec(plan, CommandSteps(command), h), CommandFrame(command))
  {
    CommandEvents(command);
    ExecIssuesFrame(plan, CommandSteps(command), h, CommandFrame(command));
  }

  /** `send_data(d)` issues exactly DC high, CS low, one write of `d` unchanged, CS high, up to the first failing call. */
  lemma SendDataIssues<S, G>(plan: Plan<S, G>, data: seq<byte>, h: Hw)
    ensures IssuesUntilFailure(plan, h, Exec(plan, DataSteps(data), h), DataFrame(data))
  {
    DataEvents(data);
    ExecIssuesFrame(plan, DataSteps(data), h, DataFrame(data));
  }

  lemma CommandEvents(command: byte)
    ensures Fixed(CommandSteps(command)) && Events(CommandSteps(command)) == CommandFrame(command)
  {
  }

  lemma DataEvents(data: seq<byte>)
    ensures Fixed(DataSteps(data)) && Events(DataSteps(data)) == DataFrame(data)
  {
  }

  lemma CommandDataEvents(command: byte, data: seq<byte>)
    ensures var p := CommandDataSteps(command, Some(data));
            Fixed(p) && Events(p) == CommandFrame(command) + DataFrame(data)
  {
    CommandEvents(command);
    DataEvents(data);
    EventsAppend(CommandSteps(command), DataSteps(data));
  }

  lemma RamAddressEvents(x: byte, y: u16)
    ensures Fixed(RamAddressSteps(x, y)) && Events(RamAddressSteps(x, y)) == RamAddressFrame(x, y)
  {
    var lohi := LittleEndian(y);
    assert lohi == [y % 0x100, y / 0x100];
    CommandDataEvents(SET_RAM_X_ADDRESS_COUNTER, [x]);
    CommandDataEvents(SET_RAM_Y_ADDRESS_COUNTER, lohi);
    EventsAppend(CommandDataSteps(SET_RAM_X_ADDRESS_COUNTER, Some([x])),
                 CommandDataSteps(SET_RAM_Y_ADDRESS_COUNTER, Some(lohi)));
  }

  /**
   * `send_command_data(c, None)` is `send_command(c)`; `send_command_data(c,
   * Some(d))` is `send_command(c)` and then, only when that succeeded,
   * `send_data(d)`.
   */
  lemma SendCommandDataSplits<S, G>(plan: Plan<S, G>, command: byte, data: Option<seq<byte>>, h: Hw)
    ensures var rc := Exec(plan, CommandSteps(command), h);
            var r := Exec(plan, CommandDataSteps(command, data), h);
            && (data.None? || rc.outcome.Err? ==> r == rc)
            && (data.Some? && rc.outcome.Ok? ==> r == Exec(plan, DataSteps(data.value), rc.hw))
  {
    if data.Some? {
      ExecSplit(plan, CommandSteps(command), DataSteps(data.value), h);
    }
  }

  /** `send_command_data(c, Some(d))` issues the command frame, then the data frame, up to the first failing call. */
  lemma SendCommandDataIssues<S, G>(plan: Plan<S, G>, command: byte, data: seq<byte>, h: Hw)
    ensures IssuesUntilFailure(plan, h, Exec(plan, CommandDataSteps(command, Some(data)), h),
                               CommandFrame(command) + DataFrame(data))
  {
    CommandDataEvents(command, data);
    ExecIssuesFrame(plan, CommandDataSteps(command, Some(data)), h, CommandFrame(command) + DataFrame(data));
  }

  /** `reset` issues exactly RESET low, a 100 ms delay, RESET high, a 100 ms delay, up to the first failing call. */
  lemma ResetIssues<S, G>(plan: Plan<S, G>, h: Hw)
    ensures IssuesUntilFailure(plan, h, Exec(plan, ResetSteps(), h), ResetFrame())
  {
    assert Events(ResetSteps()) == ResetFrame();
    ExecIssuesFrame(plan, ResetSteps(), h, ResetFrame());
  }

  /**
   * `set_ram_address_counter(x, y)` issues 0x4E with `[x]`, then 0x4F with
   * the two bytes of `y`, low byte first, up to the first failing call.
   */
  lemma RamAddressIssues<S, G>(plan: Plan<S, G>, x: byte, y: u16, h: Hw)
    ensures IssuesUntilFailure(plan, h, Exec(plan, RamAddressSteps(x, y), h), RamAddressFrame(x, y))
  {
    RamAddressEvents(x, y);
    ExecIssuesFrame(plan, RamAddressSteps(x, y), h, RamAddressFrame(x, y));
  }

  /**
   * `update_bw(buf)` / `update_red(buf)`: the address counter set to (0, 0),
   * then immediately the plane's RAM write command, then `buf` unchanged in
   * one write, up to the first failing call.
   */
  lemma UpdateIssues<S, G>(plan: Plan<S, G>, ramCommand: byte, buffer: seq<byte>, h: Hw)
    ensures IssuesUntilFailure(plan, h, Exec(plan, UpdateSteps(ramCommand, buffer), h),
                               RamAddressFrame(0, 0) + (CommandFrame(ramCommand) + DataFrame(buffer)))
  {
    var a, w := RamAddressSteps(0, 0), CommandDataSteps(ramCommand, Some(buffer));
    RamAddressEvents(0, 0);
    CommandDataEvents(ramCommand, buffer);
    EventsAppend(a, w);
    ExecIssuesFrame(plan, a + w, h, RamAddressFrame(0, 0) + (CommandFrame(ramCommand) + DataFrame(buffer)));
  }

  /**
   * The SPI transactions of a plane update: all six on success, in this
   * order, the caller's buffer last and unchanged; a prefix of them on failure.
   */
  lemma UpdateWrites<S, G>(plan: Plan<S, G>, ramCommand: byte, buffer: seq<byte>, h: Hw)
    ensures var r := Exec(plan, UpdateSteps(ramCommand, buffer), h);
            var expected := [[0x4E], [0x00], [0x4F], [0x00, 0x00], [ramCommand], buffer];
            && Writes(r.hw.trace[|h.trace|..]) <= expected
            && (r.outcome.Ok? ==> Writes(r.hw.trace[|h.trace|..]) == expected)
  {
    var a, w := RamAddressSteps(0, 0), CommandDataSteps(ramCommand, Some(buffer));
    ExecWrites(plan, a + w, h);
    UpdateStepWrites(ramCommand, buffer);
  }

  lemma UpdateStepWrites(ramCommand: byte, buffer: seq<byte>)
    ensures StepWrites(UpdateSteps(ramCommand, buffer)) == [[0x4E], [0x00], [0x4F], [0x00, 0x00], [ramCommand], buffer]
  {
    var a, w := RamAddressSteps(0, 0), CommandDataSteps(ramCommand, Some(buffer));
    var ra: seq<seq<byte>> := [[0x4E], [0x00], [0x4F], [0x00, 0x00]];
    RamAddressWrites(0, 0);
    assert LittleEndian(0) == [0x00, 0x00];
    assert StepWrites(a) == ra;
    CommandDataWrites(ramCommand, buffer);
    StepWritesAppend(a, w);
    assert StepWrites(a + w) == ra + [[ramCommand], buffer];
  }

  lemma CommandStepWrites(command: byte)
    ensures StepWrites(CommandSteps(command)) == [[command]]
  {
    StepWritesCons(Write([command]), [Set(Cs, High)]);
    StepWritesCons(Set(Cs, Low), [Write([command]), Set(Cs, High)]);
    StepWritesCons(Set(Dc, Low), [Set(Cs, Low), Write([command]), Set(Cs, High)]);
  }

  lemma DataWrites(data: seq<byte>)
    ensures StepWrites(DataSteps(data)) == [data]
  {
    StepWritesCons(Write(data), [Set(Cs, High)]);
    StepWritesCons(Set(Cs, Low), [Write(data), Set(Cs, High)]);
    StepWritesCons(Set(Dc, High), [Set(Cs, Low), Write(data), Set(Cs, High)]);
  }

  /** A command with a payload is two SPI writes: the opcode, then the payload. */
  lemma CommandDataWrites(command: byte, data: seq<byte>)
    ensures StepWrites(CommandDataSteps(command, Some(data))) == [[command], data]
  {
    CommandStepWrites(command);
    DataWrites(data);
    StepWritesAppend(CommandSteps(command), DataSteps(data));
  }

  lemma RamAddressWrites(x: byte, y: u16)
    ensures StepWrites(RamAddressSteps(x, y)) == [[0x4E], [x], [0x4F], LittleEndian(y)]
  {
    CommandDataWrites(SET_RAM_X_ADDRESS_COUNTER, [x]);
    CommandDataWrites(SET_RAM_Y_ADDRESS_COUNTER, LittleEndian(y));
    StepWritesAppend(CommandDataSteps(SET_RAM_X_ADDRESS_COUNTER, Some([x])),
                     CommandDataSteps(SET_RAM_Y_ADDRESS_COUNTER, Some(LittleEndian(y))));
  }

  /**
   * `display_refresh` is `send_command(0x20)` and then, only when that
   * succeeded, the busy-wait; on success its only SPI write is `[0x20]`.
   */
  lemma RefreshSplits<S, G>(plan: Plan<S, G>, h: Hw)
    ensures var rc := Exec(plan, CommandSteps(MASTER_ACTIVATION), h);
            var r := Exec(plan, RefreshSteps(), h);
            && r == (if rc.outcome.Err? then rc else AwaitIdle(plan, rc.hw))
            && (r.outcome.Ok? ==> Writes(r.hw.trace[|h.trace|..]) == [[0x20]])
  {
    var rc := Exec(plan, CommandSteps(MASTER_ACTIVATION), h);
    ExecSplit(plan, CommandSteps(MASTER_ACTIVATION), [WaitWhileBusy], h);
    if rc.outcome.Ok? {
      ExecCons(plan, [WaitWhileBusy], rc.hw);
    }
    ExecWrites(plan, RefreshSteps(), h);
    CommandStepWrites(MASTER_ACTIVATION);
    StepWritesCons(WaitWhileBusy, []);
    StepWritesAppend(CommandSteps(MASTER_ACTIVATION), [WaitWhileBusy]);
  }

  /** The SPI transactions of a successful `init`, in order: each opcode, then its payload. */
  function InitTransactions(): seq<seq<byte>>
  {
    [[SW_RESET],
     [DRIVER_OUTPUT_CONTROL], DRIVER_OUTPUT_DATA,
     [DATA_ENTRY_MODE_SETTING], DATA_ENTRY_MODE_DATA,
     [SET_RAM_X_ADDRESS_START_END_POSITION], RAM_X_WINDOW_DATA,
     [SET_RAM_Y_ADDRESS_START_END_POSITION], RAM_Y_WINDOW_DATA,
     [BORDER_WAVEFORM_CONTROL], BORDER_WAVEFORM_DATA,
     [DISPLAY_UPDATE_CONTROL_1], UPDATE_CONTROL_1_DATA,
     [DISPLAY_UPDATE_CONTROL_2], UPDATE_CONTROL_2_DATA]
  }

  /** The same transactions as bytes on the wire. */
  lemma InitTransactionsBytes()
    ensures InitTransactions() ==
      [[0x12], [0x01], [0xD3, 0x00, 0x00], [0x11], [0x03], [0x44], [0x00, 0x0C],
       [0x45], [0x00, 0x00, 0xD3, 0x00], [0x3C], [0x05], [0x21], [0x00, 0x80],
       [0x22], [0xC7]]
  {
  }

  /**
   * `init` writes exactly InitTransactions() on the SPI bus when it succeeds, and a
   * prefix of it when it fails.
   */
  lemma InitWrites<S, G>(plan: Plan<S, G>, h: Hw)
    ensures var r := InitRun(plan, 0, h);
            && Writes(r.hw.trace[|h.trace|..]) <= InitTransactions()
            && (r.outcome.Ok? ==> Writes(r.hw.trace[|h.trace|..]) == InitTransactions())
  {
    InitRunWrites(plan, 0, h);
    InitStepWrites();
  }

  lemma InitRunWrites<S, G>(plan: Plan<S, G>, k: nat, h: Hw)
    requires k <= INIT_PHASES
    ensures var r := InitRun(plan, k, h);
            && Writes(r.hw.trace[|h.trace|..]) <= StepWrites(InitFrom(k))
            && (r.outcome.Ok? ==> Writes(r.hw.trace[|h.trace|..]) == StepWrites(InitFrom(k)))
  {
    InitRunExec(plan, k, h);
    ExecWrites(plan, InitFrom(k), h);
  }

  lemma InitStepWrites()
    ensures StepWrites(InitSteps()) == InitTransactions()
  {
    InitFromWrites(0);
    InitWritesFromTail(0);
  }

  /** The SPI writes of the `k`-th call of `init`: none for the reset pulse and the busy-waits. */
  function PhaseWrites(k: nat): seq<seq<byte>>
    requires k < INIT_PHASES
  {
    match k
    case 0 => []
    case 1 => []
    case 2 => [[SW_RESET]]
    case 3 => []
    case 4 => [[DRIVER_OUTPUT_CONTROL], DRIVER_OUTPUT_DATA]
    case 5 => [[DATA_ENTRY_MODE_SETTING], DATA_ENTRY_MODE_DATA]
    case 6 => [[SET_RAM_X_ADDRESS_START_END_POSITION], RAM_X_WINDOW_DATA]
    case 7 => [[SET_RAM_Y_ADDRESS_START_END_POSITION], RAM_Y_WINDOW_DATA]
    case 8 => [[BORDER_WAVEFORM_CONTROL], BORDER_WAVEFORM_DATA]
    case 9 => [[DISPLAY_UPDATE_CONTROL_1], UPDATE_CONTROL_1_DATA]
    case 10 => [[DISPLAY_UPDATE_CONTROL_2], UPDATE_CONTROL_2_DATA]
  }

  /** The SPI writes of the calls of `init` from the `k`-th on, in order. */
  function InitWritesFrom(k: nat): seq<seq<byte>>
    requires k <= INIT_PHASES
    decreases INIT_PHASES - k
  {
    if k == INIT_PHASES then [] else PhaseWrites(k) + InitWritesFrom(k + 1)
  }

  /** Where the writes of the `k`-th call of `init` start among the transactions. */
  function TransactionIndex(k: nat): (i: nat)
    requires k <= INIT_PHASES
    ensures i <= |InitTransactions()|
    ensures k <= 2 ==> i == 0
    ensures 4 <= k ==> i == 2 * k - 7
  {
    if k <= 2 then 0 else if k == 3 then 1 else 2 * k - 7
  }

  /** The writes of the `k`-th call of `init` are its share of the transactions. */
  lemma PhaseTransactions(k: nat)
    requires k < INIT_PHASES
    ensures TransactionIndex(k) <= TransactionIndex(k + 1)
    ensures PhaseWrites(k) == InitTransactions()[TransactionIndex(k)..TransactionIndex(k + 1)]
  {
  }

  /** From the `k`-th call on, `init` writes the tail of the transactions. */
  lemma {:induction false} InitWritesFromTail(k: nat)
    requires k <= INIT_PHASES
    ensures InitWritesFrom(k) == InitTransactions()[TransactionIndex(k)..]
    decreases INIT_PHASES - k
  {
    var t := InitTransactions();
    if k < INIT_PHASES {
      InitWritesFromTail(k + 1);
      PhaseTransactions(k);
      SliceSplit(t, TransactionIndex(k), TransactionIndex(k + 1));
    } else {
      assert t[TransactionIndex(k)..] == [];
    }
  }

  lemma {:induction false} InitFromWrites(k: nat)
    requires k <= INIT_PHASES
    ensures StepWrites(InitFrom(k)) == InitWritesFrom(k)
    decreases INIT_PHASES - k
  {
    if k < INIT_PHASES {
      calc {
        StepWrites(InitFrom(k));
      == { InitFromCons(k); }
        StepWrites(InitPhase(k)) + StepWrites(InitFrom(k + 1));
      == { InitPhaseWrites(k); InitFromWrites(k + 1); }
        PhaseWrites(k) + InitWritesFrom(k + 1);
      }
    } else {
      InitFromEnd();
    }
  }

  lemma InitFromEnd()
    ensures StepWrites(InitFrom(INIT_PHASES)) == InitWritesFrom(INIT_PHASES) == []
  {
  }

  lemma InitPhaseWrites(k: nat)
    requires k < INIT_PHASES
    ensures StepWrites(InitPhase(k)) == PhaseWrites(k)
  {
    match k
    case 0 => ResetWrites();
    case 1 => StepWritesCons(WaitWhileBusy, []);
    case 2 => CommandStepWrites(SW_RESET);
    case 3 => StepWritesCons(WaitWhileBusy, []);
    case 4 => CommandDataWrites(DRIVER_OUTPUT_CONTROL, DRIVER_OUTPUT_DATA);
    case 5 => CommandDataWrites(DATA_ENTRY_MODE_SETTING, DATA_ENTRY_MODE_DATA);
    case 6 => CommandDataWrites(SET_RAM_X_ADDRESS_START_END_POSITION, RAM_X_WINDOW_DATA);
    case 7 => CommandDataWrites(SET_RAM_Y_ADDRESS_START_END_POSITION, RAM_Y_WINDOW_DATA);
    case 8 => CommandDataWrites(BORDER_WAVEFORM_CONTROL, BORDER_WAVEFORM_DATA);
    case 9 => CommandDataWrites(DISPLAY_UPDATE_CONTROL_1, UPDATE_CONTROL_1_DATA);
    case 10 => CommandDataWrites(DISPLAY_UPDATE_CONTROL_2, UPDATE_CONTROL_2_DATA);
  }

  lemma ResetWrites()
    ensures StepWrites(ResetSteps()) == []
  {
    StepWritesCons(Wait(RESET_HOLD_MS), []);
    StepWritesCons(Set(Rst, High), [Wait(RESET_HOLD_MS)]);
    StepWritesCons(Wait(RESET_HOLD_MS), [Set(Rst, High), Wait(RESET_HOLD_MS)]);
    StepWritesCons(Set(Rst, Low), [Wait(RESET_HOLD_MS), Set(Rst, High), Wait(RESET_HOLD_MS)]);
  }

  lemma InitFromCons(k: nat)
    requires k < INIT_PHASES
    ensures StepWrites(InitFrom(k)) == StepWrites(InitPhase(k)) + StepWrites(InitFrom(k + 1))
  {
    StepWritesAppend(InitPhase(k), InitFrom(k + 1));
  }

  /**
   * A failing `init` stops at the failing call: the last call in the trace
   * is the one that failed, with the error returned, SPI errors from SPI
   * writes and GPIO errors from pin calls.
   */
  lemma InitFailStops<S, G>(plan: Plan<S, G>, h: Hw)
    ensures var r := InitRun(plan, 0, h);
            r.outcome.Err? ==>
              && |r.hw.trace| > |h.trace|
              && var last := r.hw.trace[|r.hw.trace| - 1];
                 && Raised(plan, last, |r.hw.trace| - 1) == Some(r.outcome.error)
                 && (r.outcome.error.Spi? <==> last.SpiWrite?)
                 && (r.outcome.error.Gpio? <==> last.SetPin? || last.ReadBusy?)
  {
    InitRunFailStops(plan, 0, h);
  }

  lemma InitRunFailStops<S, G>(plan: Plan<S, G>, k: nat, h: Hw)
    requires k <= INIT_PHASES
    ensures var r := InitRun(plan, k, h);
            r.outcome.Err? ==>
              && |r.hw.trace| > |h.trace|
              && var last := r.hw.trace[|r.hw.trace| - 1];
                 && Raised(plan, last, |r.hw.trace| - 1) == Some(r.outcome.error)
                 && (r.outcome.error.Spi? <==> last.SpiWrite?)
                 && (r.outcome.error.Gpio? <==> last.SetPin? || last.ReadBusy?)
  {
    InitRunExec(plan, k, h);
    ExecFailStops(plan, InitFrom(k), h);
  }

  /**
   * `busy_wait` with BUSY high for `k` samples and then low, no read
   * failing: it returns Ok after reading BUSY k + 1 times (at least once) and
   * delaying 10 ms exactly k times, stops at the first low sample, and issues
   * nothing else.
   */
  lemma BusyWaitPolls<S, G>(plan: Plan<S, G>, h: Hw, k: nat)
    requires k < |h.busy| && h.busy[k] == Low
    requires forall i :: 0 <= i < k ==> h.busy[i] == High
    requires forall n :: n in plan.gpio ==> n < |h.trace| || |h.trace| + 2 * k < n
    ensures var r := AwaitIdle(plan, h);
            var t := r.hw.trace[|h.trace|..];
            && r.outcome.Ok?
            && r.hw.busy == h.busy[k + 1..]
            && Count(ReadBusy, t) == k + 1
            && Count(DelayMs(10), t) == k
            && (forall e :: e in t ==> e == ReadBusy || e == DelayMs(10))
  {
    var t := Polls(k) + [ReadBusy];
    AwaitIdleHighs(plan, h, k);
    SuffixAfter(h.trace, Polls(k), [ReadBusy]);
    PollsCount(k);
    forall e | e in t ensures e == ReadBusy || e == DelayMs(10) {
      if e != ReadBusy {
        assert e in Polls(k);
      }
    }
  }

  /** Only pin settings and SPI writes: no delay and no BUSY read. */
  predicate PinsAndWrites(p: seq<Step>)
  {
    forall i :: 0 <= i < |p| ==> p[i].Set? || p[i].Write?
  }

  lemma PinsAndWritesAppend(p: seq<Step>, q: seq<Step>)
    requires PinsAndWrites(p) && PinsAndWrites(q)
    ensures PinsAndWrites(p + q)
  {
    forall i | 0 <= i < |p + q| ensures (p + q)[i] == if i < |p| then p[i] else q[i - |p|] {
    }
  }

  lemma CommandDataPinsAndWrites(command: byte, data: seq<byte>)
    ensures PinsAndWrites(CommandDataSteps(command, Some(data)))
  {
    PinsAndWritesAppend(CommandSteps(command), DataSteps(data));
  }

  /** The seven configuration commands of `init` only set pins and write. */
  lemma {:induction false} ConfigPinsAndWrites(k: nat)
    requires 4 <= k <= INIT_PHASES
    ensures PinsAndWrites(InitFrom(k))
    decreases INIT_PHASES - k
  {
    if k < INIT_PHASES {
      ConfigPinsAndWrites(k + 1);
      ConfigPhasePinsAndWrites(k);
      PinsAndWritesAppend(InitPhase(k), InitFrom(k + 1));
    }
  }

  lemma ConfigPhasePinsAndWrites(k: nat)
    requires 4 <= k < INIT_PHASES
    ensures PinsAndWrites(InitPhase(k))
  {
    match k
    case 4 => CommandDataPinsAndWrites(DRIVER_OUTPUT_CONTROL, DRIVER_OUTPUT_DATA);
    case 5 => CommandDataPinsAndWrites(DATA_ENTRY_MODE_SETTING, DATA_ENTRY_MODE_DATA);
    case 6 => CommandDataPinsAndWrites(SET_RAM_X_ADDRESS_START_END_POSITION, RAM_X_WINDOW_DATA);
    case 7 => CommandDataPinsAndWrites(SET_RAM_Y_ADDRESS_START_END_POSITION, RAM_Y_WINDOW_DATA);
    case 8 => CommandDataPinsAndWrites(BORDER_WAVEFORM_CONTROL, BORDER_WAVEFORM_DATA);
    case 9 => CommandDataPinsAndWrites(DISPLAY_UPDATE_CONTROL_1, UPDATE_CONTROL_1_DATA);
    case 10 => CommandDataPinsAndWrites(DISPLAY_UPDATE_CONTROL_2, UPDATE_CONTROL_2_DATA);
  }

  /** A program that only sets pins and writes neither reads BUSY nor delays. */
  lemma PinsAndWritesEvents(p: seq<Step>)
    requires PinsAndWrites(p)
    ensures Fixed(p)
    ensures Count(ReadBusy, Events(p)) == 0
    ensures forall ms :: Count(DelayMs(ms), Events(p)) == 0
  {
  }

  /** A call of `init` that succeeds hands over to the next one. */
  lemma InitStepOk<S, G>(plan: Plan<S, G>, k: nat, h: Hw, h': Hw)
    requires k < INIT_PHASES && Exec(plan, InitPhase(k), h) == Run(Ok, h')
    ensures InitRun(plan, k, h) == InitRun(plan, k + 1, h')
  {
  }

  lemma ResetPhaseClean<S, G>(plan: Plan<S, G>, h: Hw)
    requires plan.gpio == map[] && plan.spi == map[]
    ensures Exec(plan, InitPhase(0), h) == Run(Ok, h.(trace := h.trace + ResetFrame()))
  {
    assert Fixed(ResetSteps()) && Events(ResetSteps()) == ResetFrame();
    FixedClean(plan, ResetSteps(), h);
  }

  lemma SwResetPhaseClean<S, G>(plan: Plan<S, G>, h: Hw)
    requires plan.gpio == map[] && plan.spi == map[]
    ensures Exec(plan, InitPhase(2), h) == Run(Ok, h.(trace := h.trace + CommandFrame(SW_RESET)))
  {
    CommandEvents(SW_RESET);
    FixedClean(plan, CommandSteps(SW_RESET), h);
  }

  lemma BusyPhaseClean<S, G>(plan: Plan<S, G>, h: Hw, n: nat)
    requires plan.gpio == map[]
    requires n < |h.busy| && h.busy[n] == Low
    requires forall i :: 0 <= i < n ==> h.busy[i] == High
    ensures Exec(plan, [WaitWhileBusy], h) == Run(Ok, Hw(h.trace + (Polls(n) + [ReadBusy]), h.busy[n + 1..]))
  {
    ExecAwait(plan, h);
    AwaitIdleHighs(plan, h, n);
  }

  lemma ExecAwait<S, G>(plan: Plan<S, G>, h: Hw)
    ensures Exec(plan, [WaitWhileBusy], h) == AwaitIdle(plan, h)
  {
    ExecCons(plan, [WaitWhileBusy], h);
    assert Exec(plan, [], AwaitIdle(plan, h).hw) == Run(Ok, AwaitIdle(plan, h).hw);
  }

  lemma ConfigClean<S, G>(plan: Plan<S, G>, h: Hw)
    requires plan.gpio == map[] && plan.spi == map[]
    ensures Fixed(InitFrom(4))
    ensures InitRun(plan, 4, h) == Run(Ok, h.(trace := h.trace + Events(InitFrom(4))))
  {
    ConfigPinsAndWrites(4);
    PinsAndWritesEvents(InitFrom(4));
    InitRunExec(plan, 4, h);
    FixedClean(plan, InitFrom(4), h);
  }

  /**
   * `init` with no call failing and BUSY scripted to go low after `k1` high
   * samples for the first busy-wait and after `k2` for the second: it
   * returns Ok having issued, in order, the reset pulse, the first
   * busy-wait's polls, the software reset command, the second busy-wait's
   * polls and the seven configuration commands, and nothing else.
   */
  lemma InitClean<S, G>(plan: Plan<S, G>, h: Hw, k1: nat, k2: nat)
    requires plan.gpio == map[] && plan.spi == map[]
    requires k1 + k2 + 1 < |h.busy|
    requires forall i :: 0 <= i < k1 ==> h.busy[i] == High
    requires h.busy[k1] == Low
    requires forall i :: k1 < i <= k1 + k2 ==> h.busy[i] == High
    requires h.busy[k1 + k2 + 1] == Low
    ensures var r := InitRun(plan, 0, h);
            && r.outcome.Ok?
            && r.hw.busy == h.busy[k1 + k2 + 2..]
            && Fixed(InitFrom(4))
            && r.hw.trace == h.trace + ResetFrame() + (Polls(k1) + [ReadBusy]) + CommandFrame(SW_RESET)
                             + (Polls(k2) + [ReadBusy]) + Events(InitFrom(4))
  {
    var h1 := h.(trace := h.trace + ResetFrame());
    ResetPhaseClean(plan, h);
    InitStepOk(plan, 0, h, h1);
    var h2 := Hw(h1.trace + (Polls(k1) + [ReadBusy]), h.busy[k1 + 1..]);
    BusyPhaseClean(plan, h1, k1);
    InitStepOk(plan, 1, h1, h2);
    var h3 := h2.(trace := h2.trace + CommandFrame(SW_RESET));
    SwResetPhaseClean(plan, h2);
    InitStepOk(plan, 2, h2, h3);
    assert forall i :: 0 <= i < k2 ==> h3.busy[i] == h.busy[k1 + 1 + i];
    assert h3.busy[k2 + 1..] == h.busy[k1 + k2 + 2..];
    var h4 := Hw(h3.trace + (Polls(k2) + [ReadBusy]), h.busy[k1 + k2 + 2..]);
    BusyPhaseClean(plan, h3, k2);
    InitStepOk(plan, 3, h3, h4);
    ConfigClean(plan, h4);
  }

  /**
   * The same run counted: BUSY is read k1 + k2 + 2 times, the 10 ms poll
   * delay happens k1 + k2 times, and the SPI transactions are exactly
   * InitTransactions().
   */
  lemma InitCleanCounts<S, G>(plan: Plan<S, G>, h: Hw, k1: nat, k2: nat)
    requires plan.gpio == map[] && plan.spi == map[]
    requires k1 + k2 + 1 < |h.busy|
    requires forall i :: 0 <= i < k1 ==> h.busy[i] == High
    requires h.busy[k1] == Low
    requires forall i :: k1 < i <= k1 + k2 ==> h.busy[i] == High
    requires h.busy[k1 + k2 + 1] == Low
    ensures var r := InitRun(plan, 0, h);
            var t := r.hw.trace[|h.trace|..];
            && r.outcome.Ok?
            && Count(ReadBusy, t) == k1 + k2 + 2
            && Count(DelayMs(10), t) == k1 + k2
            && Writes(t) == InitTransactions()
  {
    InitClean(plan, h, k1, k2);
    InitWrites(plan, h);
    var a, b, c, d := ResetFrame(), Polls(k1) + [ReadBusy], CommandFrame(SW_RESET), Polls(k2) + [ReadBusy];
    var e := Events(InitFrom(4));
    TraceOfFive(h.trace, a, b, c, d, e);
    PollsCount(k1);
    PollsCount(k2);
    ConfigPinsAndWrites(4);
    PinsAndWritesEvents(InitFrom(4));
    FramesWithoutPolls(SW_RESET);
    CountsOfFive(ReadBusy, a, b, c, d, e);
    CountsOfFive(DelayMs(10), a, b, c, d, e);
  }

  /** The reset pulse and a command frame neither read BUSY nor make the poll delay. */
  lemma FramesWithoutPolls(command: byte)
    ensures Count(ReadBusy, ResetFrame()) == 0 && Count(DelayMs(POLL_MS), ResetFrame()) == 0
    ensures Count(ReadBusy, CommandFrame(command)) == 0 && Count(DelayMs(POLL_MS), CommandFrame(command)) == 0
  {
    assert ReadBusy !in ResetFrame() && DelayMs(POLL_MS) !in ResetFrame();
    assert ReadBusy !in CommandFrame(command) && DelayMs(POLL_MS) !in CommandFrame(command);
  }

  lemma TraceOfFive<T>(t: seq<T>, a: seq<T>, b: seq<T>, c: seq<T>, d: seq<T>, e: seq<T>)
    ensures (t + a + b + c + d + e)[|t|..] == a + b + c + d + e
  {
    assert t + a + b + c + d + e == t + (a + b + c + d + e);
  }

  lemma SuffixAfter<T>(t: seq<T>, a: seq<T>, b: seq<T>)
    ensures (t + a + b)[|t|..] == a + b
  {
    assert t + a + b == t + (a + b);
  }

  lemma CountsOfFive(ev: Event, a: seq<Event>, b: seq<Event>, c: seq<Event>, d: seq<Event>, e: seq<Event>)
    ensures Count(ev, a + b + c + d + e) == Count(ev, a) + Count(ev, b) + Count(ev, c) + Count(ev, d) + Count(ev, e)
  {
    CountAppend(ev, a + b + c + d, e);
    CountAppend(ev, a + b + c, d);
    CountAppend(ev, a + b, c);
    CountAppend(ev, a, b);
  }
}
