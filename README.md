# SSD1675 e-paper driver (Inky pHAT) in Dafny

This project models `InkyPhat`, the driver for the SSD1675 controller of the
Inky pHAT three-colour e-paper display. The driver is generic over one SPI
write handle and four pins:
- chip select (CS), data/command select (DC) and RESET are outputs;
- BUSY is an input.

Each public operation is a fixed, ordered sequence of handle calls:
- `reset`
- `init`
- `update_bw`
- `update_red`
- `display_refresh`

The handle calls are of four kinds: set a pin low or high, write bytes on SPI, read BUSY, and delay a number of milliseconds. The first call that fails ends the operation with `InkyError::Spi` or `InkyError::Gpio`.

The model has four modules:

- `Hal` (hal.dfy): a recording stand-in for the hardware handles.
  - Every handle call is an `Event` appended to a trace.
  - BUSY is a script of `Low`/`High` samples.
  - A fault `Plan` fixes in advance which calls fail. It maps trace positions to GPIO errors and to SPI errors.
- `Protocol` (protocol.dfy): the reference semantics.
  - Each operation is a program of `Step`s.
  - `Exec` runs a program and stops at the first failing call, the way `?` does.
  - `AwaitIdle` is the busy-wait loop.
  - The module also holds general lemmas about runs: what a run issues, what it writes, and where it stops.
- `InkyDriver` (inky_driver.dfy):
  - the opcodes and payloads the driver uses;
  - the step program of every operation;
  - the class `InkyPhat`, whose methods do what the Rust methods do, call by call, on a mutable `trace` and `busy` script. Each method is proved to end in exactly the state, and with exactly the result, that `Exec` gives for its step program.
- `DriverProperties` (driver_properties.dfy): what each operation puts on the wire, as
  - exact event frames;
  - exact lists of SPI transactions;
  - BUSY-poll counts.

## Model

| member | source | states |
|---|---|---|
| Protocol.Exec | src/inky_driver.rs:79-86 | running a call sequence with early exit only ever appends to the trace |
| Protocol.AwaitIdle | src/inky_driver.rs:106-113 | the busy-wait always reads BUSY first (at least one sample), only appends to the trace and never gains samples |
| Protocol.ExecSplit | src/inky_driver.rs:97-104 | running two call sequences in a row with `?` is running the first, then the second only if the first succeeded |
| Protocol.ExecFailStops | src/inky_driver.rs:81-84 | after a failure nothing more is issued: the last call in the trace is the failing one, it raised the returned error, an `Spi` error comes exactly from an SPI write and a `Gpio` error exactly from a pin set or BUSY read |
| Protocol.ExecFixedIssues | src/inky_driver.rs:79-95 | a sequence without busy-wait issues its calls in order up to and including the first that fails, never reads BUSY, and returns Ok exactly when every call was issued and succeeded, otherwise the error of the last call issued |
| Protocol.FixedClean | src/inky_driver.rs:79-95 | when none of its calls fails, such a sequence returns Ok having issued every call |
| Protocol.ExecWrites | src/inky_driver.rs:83 | the SPI transactions of a run are exactly the writes of its program in order on success, and a prefix of them on failure |
| Protocol.AwaitIdleWritesNothing | src/inky_driver.rs:106-113 | the busy-wait never writes on SPI |
| Protocol.AwaitIdleHighs | src/inky_driver.rs:106-113 | with k high samples then a low, the busy-wait issues k rounds of read plus 10 ms delay, then one final read, consumes exactly k + 1 samples and returns Ok |
| Protocol.PollsCount | src/inky_driver.rs:108-111 | those polls hold exactly k + 1 BUSY reads and k delays of 10 ms, and nothing else |
| InkyDriver.LittleEndian | src/inky_driver.rs:119 | `[y as u8, (y >> 8) as u8]` is two bytes, low first, and `lo + 256 * hi == y` |
| InkyDriver.InitRun | src/inky_driver.rs:123-152 | `init` run call by call only appends to the trace |
| InkyDriver.InitRunExec | src/inky_driver.rs:123-152 | running `init` call by call, with early exit, is running its whole step program |
| InkyDriver.InitAdvance | src/inky_driver.rs:130-148 | at each call of `init`, a failure ends `init` with that error and state; a success continues with the next call |
| InkyDriver.InkyPhat.constructor | src/inky_driver.rs:60-68 | `new` issues no call: empty trace, the given BUSY script and fault plan |
| InkyDriver.InkyPhat.SetOutput | src/inky_driver.rs:81-84 | a pin set appends one `SetPin` event and fails with `Gpio` exactly when the plan says so |
| InkyDriver.InkyPhat.WriteSpi | src/inky_driver.rs:83 | an SPI write appends one `SpiWrite` of the bytes and fails with `Spi` exactly when the plan says so |
| InkyDriver.InkyPhat.Delay | src/inky_driver.rs:73 | a delay appends one `DelayMs` event and cannot fail |
| InkyDriver.InkyPhat.IsBusyHigh | src/inky_driver.rs:108 | a BUSY read appends one `ReadBusy`; on success it consumes one sample and reports whether it was High; on failure it returns `Gpio` and keeps the script |
| InkyDriver.InkyPhat.Reset | src/inky_driver.rs:70-77 | `reset` ends in exactly the result and state of its program: RESET low, 100 ms, RESET high, 100 ms, with early exit |
| InkyDriver.InkyPhat.SendCommand | src/inky_driver.rs:79-86 | `send_command` ends in exactly the result and state of DC low, CS low, write `[c]`, CS high, with early exit |
| InkyDriver.InkyPhat.SendData | src/inky_driver.rs:88-95 | `send_data` ends in exactly the result and state of DC high, CS low, write `d`, CS high, with early exit |
| InkyDriver.InkyPhat.SendCommandData | src/inky_driver.rs:97-104 | `send_command_data` ends in exactly the result and state of the command's program, followed by the data's program when a payload is given |
| InkyDriver.InkyPhat.BusyWait | src/inky_driver.rs:106-113 | the polling loop ends in exactly the result and state of `AwaitIdle`; its invariant keeps the trace equal to the start plus one read and one 10 ms delay per high sample consumed |
| InkyDriver.InkyPhat.SetRamAddressCounter | src/inky_driver.rs:115-121 | `set_ram_address_counter` ends in exactly the result and state of 0x4E with `[x]`, then 0x4F with the two bytes of `y` |
| InkyDriver.InkyPhat.Init | src/inky_driver.rs:123-152 | `init` ends in exactly the result and state of `InitRun` from its first call |
| InkyDriver.InkyPhat.UpdateBw | src/inky_driver.rs:154-160 | `update_bw` ends in exactly the result and state of the (0, 0) address counter, then 0x24 with the buffer |
| InkyDriver.InkyPhat.UpdateRed | src/inky_driver.rs:162-168 | `update_red` ends in exactly the result and state of the (0, 0) address counter, then 0x26 with the buffer |
| InkyDriver.InkyPhat.DisplayRefresh | src/inky_driver.rs:170-174 | `display_refresh` ends in exactly the result and state of 0x20, then a busy-wait |
| DriverProperties.SendCommandIssues | src/inky_driver.rs:79-86 | `send_command(c)` issues exactly DC low, CS low, one write of `[c]`, CS high, up to the first failure |
| DriverProperties.SendDataIssues | src/inky_driver.rs:88-95 | `send_data(d)` issues exactly DC high, CS low, one write of `d` unchanged, CS high, up to the first failure |
| DriverProperties.SendCommandDataSplits | src/inky_driver.rs:97-104 | with no payload it is `send_command(c)`; with a payload it is `send_command(c)`, then `send_data(d)` only if the command succeeded |
| DriverProperties.SendCommandDataIssues | src/inky_driver.rs:97-104 | with a payload it issues the command frame, then the data frame, up to the first failure |
| DriverProperties.CommandDataWrites | src/inky_driver.rs:97-104 | a command with a payload is two SPI writes: the opcode, then the payload |
| DriverProperties.ResetIssues | src/inky_driver.rs:70-77 | `reset` issues exactly RESET low, delay 100, RESET high, delay 100, up to the first failure |
| DriverProperties.RamAddressIssues | src/inky_driver.rs:115-121 | issues 0x4E with `[x]`, then 0x4F with `[y % 256, y / 256]`, each framed by DC and CS, up to the first failure |
| DriverProperties.RamAddressWrites | src/inky_driver.rs:115-121 | its SPI writes are `[0x4E]`, `[x]`, `[0x4F]` and the two bytes of `y` |
| DriverProperties.UpdateIssues | src/inky_driver.rs:154-168 | a plane update issues the (0, 0) address frames, immediately followed by the RAM command frame and one write of the caller's buffer, up to the first failure |
| DriverProperties.UpdateWrites | src/inky_driver.rs:154-168 | its SPI transactions are exactly `[0x4E]`, `[0x00]`, `[0x4F]`, `[0x00, 0x00]`, the RAM opcode and the unchanged buffer on success, and a prefix of them on failure |
| DriverProperties.RefreshSplits | src/inky_driver.rs:170-174 | `display_refresh` is `send_command(0x20)`, then the busy-wait only if that succeeded; on success its only SPI write is `[0x20]` |
| DriverProperties.InitTransactionsBytes | src/inky_driver.rs:133-148 | the configuration transactions of `init`, in bytes: 0x12; 0x01 `[D3 00 00]`; 0x11 `[03]`; 0x44 `[00 0C]`; 0x45 `[00 00 D3 00]`; 0x3C `[05]`; 0x21 `[00 80]`; 0x22 `[C7]` |
| DriverProperties.InitStepWrites | src/inky_driver.rs:130-148 | the step program of `init` writes exactly those transactions |
| DriverProperties.InitWrites | src/inky_driver.rs:123-152 | on success `init`'s SPI transactions are exactly those; on failure they are a prefix of them |
| DriverProperties.InitFailStops | src/inky_driver.rs:123-152 | a failing `init` issues nothing after the failing call, which raised the returned error of the matching kind |
| DriverProperties.BusyWaitPolls | src/inky_driver.rs:106-113 | with k high samples then a low, the busy-wait returns Ok after exactly k + 1 BUSY reads and k 10 ms delays, consuming k + 1 samples and issuing nothing else |
| DriverProperties.InitClean | src/inky_driver.rs:123-152 | with no failing call, `init` returns Ok having issued exactly: the reset pulse, the first busy-wait, the SW_RESET frame, the second busy-wait, then the configuration commands |
| DriverProperties.InitCleanCounts | src/inky_driver.rs:123-152 | in that run BUSY is read k1 + k2 + 2 times, the 10 ms delay happens k1 + k2 times, and the SPI transactions are exactly the init list |

## Left out

- src/main.rs is not part of this model. It holds Linux SPI and sysfs-GPIO setup, a third-party controller crate, text rendering and an endless display loop.
- The unused opcodes (src/inky_driver.rs:8-10, 13, 19-22) are not declared, because no operation sends them.
- Real time is not modelled. A delay is a `DelayMs` event carrying its argument.
- BusyWait: BUSY is a finite script, and a script that has run out reads Low. The model therefore does not capture the unbounded hang the source shows while BUSY stays high.
- IsBusyHigh: a failed BUSY read consumes no sample. The source leaves the input's state after a failure to the pin implementation.
- The `embedded_hal` traits, the generic handle types and Rust ownership are not modelled. SPI and GPIO errors are type parameters `S` and `G`. Handle failures are fixed in advance by a fault plan keyed by trace position.
- A buffer length check is not modelled, because the source performs none. `update_bw` and `update_red` pass any buffer through unchanged.
- InitClean, InitCleanCounts: stated only for a fault plan with no failures. Runs with failures are covered by InitWrites and InitFailStops.
- On a failed SPI write, CS is left low, because the `?` returns before CS is raised. The model keeps this behaviour and does not restore CS.
