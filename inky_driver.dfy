/**
 * The SSD1675 driver of the Inky pHAT (a 104 x 212 black/white/red e-paper
 * panel): the opcodes it uses, the step program of each operation, and the
 * driver itself as a class over the recording test double of module Hal.
 */
module InkyDriver {
  import opened Hal
  import opened Protocol

  // SSD1675 opcodes used by the driver
  const DRIVER_OUTPUT_CONTROL: byte := 0x01
  const DATA_ENTRY_MODE_SETTING: byte := 0x11
  const SW_RESET: byte := 0x12
  const MASTER_ACTIVATION: byte := 0x20
  const DISPLAY_UPDATE_CONTROL_1: byte := 0x21
  const DISPLAY_UPDATE_CONTROL_2: byte := 0x22
  const WRITE_RAM_BW: byte := 0x24
  const WRITE_RAM_RED: byte := 0x26
  const BORDER_WAVEFORM_CONTROL: byte := 0x3C
  const SET_RAM_X_ADDRESS_START_END_POSITION: byte := 0x44
  const SET_RAM_Y_ADDRESS_START_END_POSITION: byte := 0x45
  const SET_RAM_X_ADDRESS_COUNTER: byte := 0x4E
  const SET_RAM_Y_ADDRESS_COUNTER: byte := 0x4F

  // The payloads `init` sends, for the 104 x 212 panel
  /** Gate lines minus one, low byte then high bit (211 = 0xD3), then the gate scan order. */
  const DRIVER_OUTPUT_DATA: seq<byte> := [0xD3, 0x00, 0x00]
  /** X increments, then Y. */
  const DATA_ENTRY_MODE_DATA: seq<byte> := [0x03]
  /** RAM X window: byte columns 0 to 12. */
  const RAM_X_WINDOW_DATA: seq<byte> := [0x00, 0x0C]
  /** RAM Y window: rows 0 to 211, each as two little-endian bytes. */
  const RAM_Y_WINDOW_DATA: seq<byte> := [0x00, 0x00, 0xD3, 0x00]
  const BORDER_WAVEFORM_DATA: seq<byte> := [0x05]
  const UPDATE_CONTROL_1_DATA: seq<byte> := [0x00, 0x80]
  const UPDATE_CONTROL_2_DATA: seq<byte> := [0xC7]

  /** How long `reset` holds the reset line at each level, in milliseconds. */
  const RESET_HOLD_MS: byte := 100

  /** Command mode, chip select, the one opcode byte, chip release. */
  function CommandSteps(command: byte): seq<Step>
  {
    [Set(Dc, Low), Set(Cs, Low), Write([command]), Set(Cs, High)]
  }

  /** Data mode, chip select, the whole payload as one write, chip release. */
  function DataSteps(data: seq<byte>): seq<Step>
  {
    [Set(Dc, High), Set(Cs, Low), Write(data), Set(Cs, High)]
  }

  function CommandDataSteps(command: byte, data: Option<seq<byte>>): seq<Step>
  {
    match data
    case None => CommandSteps(command)
    case Some(d) => CommandSteps(command) + DataSteps(d)
  }

  function ResetSteps(): seq<Step>
  {
    [Set(Rst, Low), Wait(RESET_HOLD_MS), Set(Rst, High), Wait(RESET_HOLD_MS)]
  }

  /** `[y as u8, (y >> 8) as u8]`: the Y counter as two little-endian bytes. */
  function LittleEndian(y: u16): (b: seq<byte>)
    ensures |b| == 2 && b[0] as int + 0x100 * b[1] as int == y as int
  {
    [y % 0x100, y / 0x100]
  }

  function RamAddressSteps(x: byte, y: u16): seq<Step>
  {
    CommandDataSteps(SET_RAM_X_ADDRESS_COUNTER, Some([x]))
      + CommandDataSteps(SET_RAM_Y_ADDRESS_COUNTER, Some(LittleEndian(y)))
  }

  /** The number of calls `init` makes. */
  const INIT_PHASES: nat := 11

  /**
   * The initialisation sequence, call by call: the reset pulse, a busy-wait,
   * the software reset, a busy-wait, then the seven configuration commands.
   */
  function InitPhase(k: nat): seq<Step>
    requires k < INIT_PHASES
  {
    match k
    case 0 => ResetSteps()
    case 1 => [WaitWhileBusy]
    case 2 => CommandSteps(SW_RESET)
    case 3 => [WaitWhileBusy]
    case 4 => CommandDataSteps(DRIVER_OUTPUT_CONTROL, Some(DRIVER_OUTPUT_DATA))
    case 5 => CommandDataSteps(DATA_ENTRY_MODE_SETTING, Some(DATA_ENTRY_MODE_DATA))
    case 6 => CommandDataSteps(SET_RAM_X_ADDRESS_START_END_POSITION, Some(RAM_X_WINDOW_DATA))
    case 7 => CommandDataSteps(SET_RAM_Y_ADDRESS_START_END_POSITION, Some(RAM_Y_WINDOW_DATA))
    case 8 => CommandDataSteps(BORDER_WAVEFORM_CONTROL, Some(BORDER_WAVEFORM_DATA))
    case 9 => CommandDataSteps(DISPLAY_UPDATE_CONTROL_1, Some(UPDATE_CONTROL_1_DATA))
    case 10 => CommandDataSteps(DISPLAY_UPDATE_CONTROL_2, Some(UPDATE_CONTROL_2_DATA))
  }

  /** The calls of `init` from the `k`-th on. */
  function InitFrom(k: nat): seq<Step>
    requires k <= INIT_PHASES
    decreases INIT_PHASES - k
  {
    if k == INIT_PHASES then [] else InitPhase(k) + InitFrom(k + 1)
  }

  function InitSteps(): seq<Step>
  {
    InitFrom(0)
  }

  /** Both plane updates: address counter to (0, 0), then the RAM write command with the buffer. */
  function UpdateSteps(ramCommand: byte, buffer: seq<byte>): seq<Step>
  {
    RamAddressSteps(0, 0) + CommandDataSteps(ramCommand, Some(buffer))
  }

  function RefreshSteps(): seq<Step>
  {
    CommandSteps(MASTER_ACTIVATION) + [WaitWhileBusy]
  }

  /**
   * `init` run call by call from the `k`-th call on, stopping at the first
   * call that fails.
   */
  function InitRun<S, G>(plan: Plan<S, G>, k: nat, h: Hw): (r: Run<S, G>)
    requires k <= INIT_PHASES
    ensures h.trace <= r.hw.trace
    // as for `Exec`, `h` is named only to keep constant calls from being expanded
    decreases INIT_PHASES - k, h
  {
    if k == INIT_PHASES then Run(Ok, h)
    else
      var r := Exec(plan, InitPhase(k), h);
      if r.outcome.Err? then r else InitRun(plan, k + 1, r.hw)
  }

  /**
   * One call of `init`: when `init` from its start has reached the `k`-th
   * call, the outcome of that call decides whether the rest runs.
   */
  lemma InitAdvance<S, G>(plan: Plan<S, G>, h0: Hw, k: nat, h: Hw, r: Outcome<S, G>, h': Hw)
    requires k < INIT_PHASES
    requires InitRun(plan, 0, h0) == InitRun(plan, k, h)
    requires Exec(plan, InitPhase(k), h) == Run(r, h')
    ensures r.Err? ==> InitRun(plan, 0, h0) == Run(r, h')
    ensures r.Ok? ==> InitRun(plan, 0, h0) == InitRun(plan, k + 1, h')
  {
  }

  /** Running `init` call by call is running its whole step program. */
  lemma {:induction false} InitRunExec<S, G>(plan: Plan<S, G>, k: nat, h: Hw)
    requires k <= INIT_PHASES
    ensures InitRun(plan, k, h) == Exec(plan, InitFrom(k), h)
    decreases INIT_PHASES - k
  {
    if k < INIT_PHASES {
      ExecSplit(plan, InitPhase(k), InitFrom(k + 1), h);
      var r := Exec(plan, InitPhase(k), h);
      if r.outcome.Ok? {
        InitRunExec(plan, k + 1, r.hw);
      }
    }
  }

  /**
   * The driver.  The SPI bus, the three output pins, the BUSY input and the
   * delay source are replaced by the test double: `trace` records every call
   * issued on them, `busy` holds the BUSY samples still to be read, and
   * `plan` says which calls fail.
   */
  class InkyPhat<S, G> {
    const plan: Plan<S, G>
    var trace: seq<Event>
    var busy: seq<Level>

    function State(): Hw
      reads this
    {
      Hw(trace, busy)
    }

    /** `InkyPhat::new`: takes ownership of the handles; issues no call. */
    constructor (plan: Plan<S, G>, busy: seq<Level>)
      ensures this.plan == plan && trace == [] && this.busy == busy
    {
      this.plan := plan;
      trace := [];
      this.busy := busy;
    }

    // The handle calls of the test double

    method SetOutput(pin: Pin, level: Level) returns (r: Outcome<S, G>)
      modifies this
      ensures Run(r, State()) == StepRun(plan, Set(pin, level), old(State()))
    {
      var pos := |trace|;
      trace := trace + [SetPin(pin, level)];
      r := if pos in plan.gpio then Err(Gpio(plan.gpio[pos])) else Ok;
    }

    method WriteSpi(bytes: seq<byte>) returns (r: Outcome<S, G>)
      modifies this
      ensures Run(r, State()) == StepRun(plan, Write(bytes), old(State()))
    {
      var pos := |trace|;
      trace := trace + [SpiWrite(bytes)];
      r := if pos in plan.spi then Err(Spi(plan.spi[pos])) else Ok;
    }

    method Delay(ms: byte)
      modifies this
      ensures Run(Ok, State()) == StepRun(plan, Wait(ms), old(State()))
    {
      trace := trace + [DelayMs(ms)];
    }

    /** `busy.is_high()`: a failed read consumes no sample; an exhausted script reads Low. */
    method IsBusyHigh() returns (r: Outcome<S, G>, high: bool)
      modifies this
      ensures trace == old(trace) + [ReadBusy]
      ensures r == (match Raised(plan, ReadBusy, |old(trace)|) case Some(e) => Err(e) case None => Ok)
      ensures r.Err? ==> busy == old(busy)
      ensures r.Ok? ==> high == (old(busy) != [] && old(busy)[0] == High)
      ensures r.Ok? ==> busy == if old(busy) == [] then [] else old(busy)[1..]
    {
      var pos := |trace|;
      trace := trace + [ReadBusy];
      if pos in plan.gpio {
        r, high := Err(Gpio(plan.gpio[pos])), false;
      } else {
        r := Ok;
        high := busy != [] && busy[0] == High;
        if busy != [] {
          busy := busy[1..];
        }
      }
    }

    // The driver's operations

    /** Pulses the reset line low then high, holding each level 100 ms. */
    method Reset() returns (r: Outcome<S, G>)
      modifies this
      ensures Run(r, State()) == Exec(plan, ResetSteps(), old(State()))
    {
      ghost var p, h := ResetSteps(), State();
      r := SetOutput(Rst, Low);
      ExecCons(plan, p, h);
      if r.Err? { return; }
      p, h := p[1..], State();
      Delay(RESET_HOLD_MS);
      ExecCons(plan, p, h);
      p, h := p[1..], State();
      r := SetOutput(Rst, High);
      ExecCons(plan, p, h);
      if r.Err? { return; }
      p, h := p[1..], State();
      Delay(RESET_HOLD_MS);
      ExecCons(plan, p, h);
    }

    method SendCommand(command: byte) returns (r: Outcome<S, G>)
      modifies this
      ensures Run(r, State()) == Exec(plan, CommandSteps(command), old(State()))
    {
      ghost var p, h := CommandSteps(command), State();
      r := SetOutput(Dc, Low);
      ExecCons(plan, p, h);
      if r.Err? { return; }
      p, h := p[1..], State();
      r := SetOutput(Cs, Low);
      ExecCons(plan, p, h);
      if r.Err? { return; }
      p, h := p[1..], State();
      r := WriteSpi([command]);
      ExecCons(plan, p, h);
      if r.Err? { return; }
      p, h := p[1..], State();
      r := SetOutput(Cs, High);
      ExecCons(plan, p, h);
    }

    method SendData(data: seq<byte>) returns (r: Outcome<S, G>)
      modifies this
      ensures Run(r, State()) == Exec(plan, DataSteps(data), old(State()))
    {
      ghost var p, h := DataSteps(data), State();
      r := SetOutput(Dc, High);
      ExecCons(plan, p, h);
      if r.Err? { return; }
      p, h := p[1..], State();
      r := SetOutput(Cs, Low);
      ExecCons(plan, p, h);
      if r.Err? { return; }
      p, h := p[1..], State();
      r := WriteSpi(data);
      ExecCons(plan, p, h);
      if r.Err? { return; }
      p, h := p[1..], State();
      r := SetOutput(Cs, High);
      ExecCons(plan, p, h);
    }

    method SendCommandData(command: byte, data: Option<seq<byte>>) returns (r: Outcome<S, G>)
      modifies this
      ensures Run(r, State()) == Exec(plan, CommandDataSteps(command, data), old(State()))
    {
      ghost var h := State();
      r := SendCommand(command);
      if data.Some? {
        ExecSplit(plan, CommandSteps(command), DataSteps(data.value), h);
        if r.Err? { return; }
        r := SendData(data.value);
      }
    }

    /** Polls BUSY every 10 ms until it reads low. */
    method BusyWait() returns (r: Outcome<S, G>)
      modifies this
      ensures Run(r, State()) == AwaitIdle(plan, old(State()))
    {
      ghost var highs: nat := 0;
      while true
        invariant AwaitIdle(plan, State()) == AwaitIdle(plan, old(State()))
        invariant highs <= |old(busy)| && busy == old(busy)[highs..]
        invariant forall i :: 0 <= i < highs ==> old(busy)[i] == High
        invariant trace == old(trace) + Polls(highs)
        decreases |busy|
      {
        ghost var before := State();
        var high;
        r, high := IsBusyHigh();
        if r.Err? || !high {
          return;
        }
        Delay(POLL_MS);
        assert trace == before.trace + [ReadBusy, DelayMs(POLL_MS)];
        PollsSnoc(highs);
        AppendAssoc(old(trace), Polls(highs), [ReadBusy, DelayMs(POLL_MS)]);
        assert old(busy)[highs..][1..] == old(busy)[highs + 1..];
        highs := highs + 1;
      }
    }

    method SetRamAddressCounter(x: byte, y: u16) returns (r: Outcome<S, G>)
      modifies this
      ensures Run(r, State()) == Exec(plan, RamAddressSteps(x, y), old(State()))
    {
      ghost var h := State();
      ExecSplit(plan, CommandDataSteps(SET_RAM_X_ADDRESS_COUNTER, Some([x])),
                CommandDataSteps(SET_RAM_Y_ADDRESS_COUNTER, Some(LittleEndian(y))), h);
      r := SendCommandData(SET_RAM_X_ADDRESS_COUNTER, Some([x]));
      if r.Err? { return; }
      r := SendCommandData(SET_RAM_Y_ADDRESS_COUNTER, Some([y % 0x100, y / 0x100]));
    }

    method Init() returns (r: Outcome<S, G>)
      modifies this
      ensures Run(r, State()) == InitRun(plan, 0, old(State()))
    {
      ghost var h0, h, k := State(), State(), 0;

      r := Reset();
      InitAdvance(plan, h0, k, h, r, State());
      if r.Err? { return; }
      h, k := State(), k + 1;

      r := BusyWait();
      InitAdvance(plan, h0, k, h, r, State());
      if r.Err? { return; }
      h, k := State(), k + 1;

      r := SendCommand(SW_RESET);
      InitAdvance(plan, h0, k, h, r, State());
      if r.Err? { return; }
      h, k := State(), k + 1;

      r := BusyWait();
      InitAdvance(plan, h0, k, h, r, State());
      if r.Err? { return; }
      h, k := State(), k + 1;

      r := SendCommandData(DRIVER_OUTPUT_CONTROL, Some(DRIVER_OUTPUT_DATA));
      InitAdvance(plan, h0, k, h, r, State());
      if r.Err? { return; }
      h, k := State(), k + 1;

      r := SendCommandData(DATA_ENTRY_MODE_SETTING, Some(DATA_ENTRY_MODE_DATA));
      InitAdvance(plan, h0, k, h, r, State());
      if r.Err? { return; }
      h, k := State(), k + 1;

      r := SendCommandData(SET_RAM_X_ADDRESS_START_END_POSITION, Some(RAM_X_WINDOW_DATA));
      InitAdvance(plan, h0, k, h, r, State());
      if r.Err? { return; }
      h, k := State(), k + 1;

      r := SendCommandData(SET_RAM_Y_ADDRESS_START_END_POSITION, Some(RAM_Y_WINDOW_DATA));
      InitAdvance(plan, h0, k, h, r, State());
      if r.Err? { return; }
      h, k := State(), k + 1;

      r := SendCommandData(BORDER_WAVEFORM_CONTROL, Some(BORDER_WAVEFORM_DATA));
      InitAdvance(plan, h0, k, h, r, State());
      if r.Err? { return; }
      h, k := State(), k + 1;

      r := SendCommandData(DISPLAY_UPDATE_CONTROL_1, Some(UPDATE_CONTROL_1_DATA));
      InitAdvance(plan, h0, k, h, r, State());
      if r.Err? { return; }
      h, k := State(), k + 1;

      r := SendCommandData(DISPLAY_UPDATE_CONTROL_2, Some(UPDATE_CONTROL_2_DATA));
      InitAdvance(plan, h0, k, h, r, State());
    }

    method UpdateBw(buffer: seq<byte>) returns (r: Outcome<S, G>)
      modifies this
      ensures Run(r, State()) == Exec(plan, UpdateSteps(WRITE_RAM_BW, buffer), old(State()))
    {
      ghost var h := State();
      ExecSplit(plan, RamAddressSteps(0, 0), CommandDataSteps(WRITE_RAM_BW, Some(buffer)), h);
      r := SetRamAddressCounter(0, 0);
      if r.Err? { return; }
      r := SendCommandData(WRITE_RAM_BW, Some(buffer));
    }

    method UpdateRed(buffer: seq<byte>) returns (r: Outcome<S, G>)
      modifies this
      ensures Run(r, State()) == Exec(plan, UpdateSteps(WRITE_RAM_RED, buffer), old(State()))
    {
      ghost var h := State();
      ExecSplit(plan, RamAddressSteps(0, 0), CommandDataSteps(WRITE_RAM_RED, Some(buffer)), h);
      r := SetRamAddressCounter(0, 0);
      if r.Err? { return; }
      r := SendCommandData(WRITE_RAM_RED, Some(buffer));
    }

    method DisplayRefresh() returns (r: Outcome<S, G>)
      modifies this
      ensures Run(r, State()) == Exec(plan, RefreshSteps(), old(State()))
    {
      ghost var h := State();
      ExecSplit(plan, CommandSteps(MASTER_ACTIVATION), [WaitWhileBusy], h);
      r := SendCommand(MASTER_ACTIVATION);
      if r.Err? { return; }
      ExecCons(plan, [WaitWhileBusy], State());
      r := BusyWait();
    }
  }
}
