# grblHAL Modbus I/O command engine, in Dafny

This project models the command transaction engine of the grblHAL Modbus I/O
plugin (`modbus_io.c`). The engine lets a G-code program act as a Modbus
master.

- **M101** `D<device> E<function> P<register> [Q<value>]` sends one of the six
  single-item requests of the Modbus Application Protocol Specification
  V1.1b3, sections 6.1 to 6.6.
- **M102** `D<device> P<input> Q<0|1> R<seconds>` polls one discrete input
  until it reads the target value. If it never does, it raises a timeout
  alarm.

A read reply is decoded into one shared result slot, `sys.var5399`. This happens
only when the reply's first byte, the device address, has bit 0x80 clear. The
decoder tests the error bit there rather than on the function code, so replies
from devices 128 to 247 are never decoded.

The model is split into these modules:

| file | module | what it holds |
|---|---|---|
| `gcode.dfy` | `GCode` | C floats (NaN, C comparisons, truncation), the block's words and values, status codes, M-code numbers |
| `frames.dfy` | `Frames` | the transport message and the six request builders, big-endian |
| `decoder.dfy` | `Decoder` | the response decoder, the protocol's reference responses and their round trips |
| `transaction.dfy` | `Transaction` | the transport as an oracle; the effect of one blocking send on the engine's state |
| `poll.dfy` | `Poll` | the wait loop as a recursive specification and its properties |
| `validation.dfy` | `Validation` | the validator's verdict, the previous-handler chain, and what a validated block guarantees |
| `executor.dfy` | `Executor` | how a validated M101 block becomes one request, and an M102 block becomes the wait's parameters |
| `engine.dfy` | `Engine` | the class `ModbusIo`: its state, the handlers, the blocking send, the callbacks and the wait loop |

The engine's mutable state lives in the fields of `Engine.ModbusIo`:

- the result slot;
- the frames handed to the transport;
- the events raised (alarms, deferred tasks, warnings, delegated M-codes);
- the time spent sleeping;
- the host's flags `sys.cold_start` and `sys.abort`. The host may set these between commands; no engine method changes them.

The parser block is the class `GCode.ParserBlock`. Validation clears its word
flags and rewrites its Q value in place.

Each imperative method is proved against a specification function: `Send`
against `Transact`, `RxPacket` against `PacketEffect`, the wait loop against
`PollFrom` and `Validate` against `ValidateChain`. The lemmas beside those
functions state what the source promises.

## Model

| member | source | states |
|---|---|---|
| Frames.U16RoundTrip | modbus_io.c:99-102 | `MODBUS_SET_MSB16`/`MODBUS_SET_LSB16` then `modbus_read_u16`: a 16-bit field written as MSB then LSB reads back as the same value |
| Frames.BytesRoundTrip | modbus_io.c:428 | `modbus_read_u16` then `MODBUS_SET_MSB16`/`MODBUS_SET_LSB16`: two bytes read as a 16-bit value split back into the same two bytes |
| Frames.Request | modbus_io.c:94-105 | every request carries the Command context, the CRC flag, 8 bytes to send, the device address, the function code, and the register and value big-endian |
| Frames.ReadCoils | modbus_io.c:93-107 | function code 1, register and count as given, reply length 6 (4 payload bytes + CRC) |
| Frames.WriteCoil | modbus_io.c:109-123 | function code 5, register and value as given, reply length 8 (the echo + CRC) |
| Frames.ReadDiscreteInputs | modbus_io.c:125-139 | function code 2, register and count as given, reply length 6 |
| Frames.ReadHoldingRegisters | modbus_io.c:141-155 | function code 3, the register as given, a count of exactly 1, reply length 7 |
| Frames.ReadInputRegisters | modbus_io.c:157-171 | function code 4, register and count as given, reply length 7 |
| Frames.WriteRegister | modbus_io.c:173-187 | function code 6, register and value as given, reply length 8 |
| Decoder.Decode | modbus_io.c:410-430 | the slot changes only for a reply whose first byte has bit 0x80 clear, in the Command context, with function code 1 to 4; a discrete-input read stores 0 or 1; any stored value is a 16-bit quantity |
| Decoder.StatusRoundTrip | modbus_io.c:418-424 | for a read of 1 to 8 items, whose normal reply has one status byte: a coil read yields that byte and a discrete-input read its lowest bit; both replies fit the frame's expected length |
| Decoder.RegisterRoundTrip | modbus_io.c:426-428 | the normal reply to a one-register read (holding or input) yields the register's 16-bit value and fits the expected length |
| Decoder.EchoKeepsSlot | modbus_io.c:417-430 | the echo that acknowledges a coil or register write fits the expected length and leaves the slot unchanged |
| Decoder.ExceptionKeepsSlot | modbus_io.c:411 | an exception response to any of the six requests leaves the slot unchanged |
| Decoder.HighAddressReplyIgnored | modbus_io.c:411 | a reply whose address byte has bit 0x80 set, from device 128 to 247, is never decoded |
| Decoder.DecodeReadsOnlyPayload | modbus_io.c:417-430 | the decoder reads only bytes before the CRC of the reply the function code expects |
| Transaction.FailureEvents | modbus_io.c:52-64 | during cold start, a single deferred alarm; otherwise an immediate alarm followed by the deferred "What's this?" warning, and no deferred alarm |
| Transaction.PacketEffect | modbus_io.c:410-480 | a received packet either sets the slot to the decoded value or, with bit 0x80 of the first byte set, only adds the "MODBUS ERROR" warning |
| Transaction.Transact | modbus_io.c:83-91 | a blocking send records exactly one frame and only appends events; an exception leaves the slot alone and appends exactly the failure events for the cold-start flag; a packet sets the slot to its decoded value and appends only the "MODBUS ERROR" warning, when bit 0x80 of its first byte is set |
| Poll.Ceil | modbus_io.c:191 | the least integer not below its argument |
| Poll.StepBudget | modbus_io.c:191 | at least one step; one step more than a timeout in 50 ms steps, rounded up |
| Poll.PollFrame | modbus_io.c:194 | each poll reads one discrete input of the given device and register |
| Poll.PollFrom | modbus_io.c:189-216 | a wait sends at least one frame after those already sent and never shortens the sleep; it returns the target when the slot holds the target at the end, and -1 otherwise |
| Poll.FirstReadMatches | modbus_io.c:194-198 | when the first read finds the target, the wait returns it after exactly that frame, with no sleep and with earlier events kept |
| Poll.PollAccounting | modbus_io.c:189-216 | between 1 and N reads, all the poll frame and appended after earlier frames; the target is returned exactly when the slot holds it, otherwise -1; 50 ms of sleep after every unmatched read |
| Poll.AbortedPollReadsOnce | modbus_io.c:207 | the abort flag is tested only after an iteration, so an aborted wait still issues exactly one read |
| Poll.UnmatchedPollUsesBudget | modbus_io.c:191-207 | without abort, a wait that never matches issues N reads and sleeps 50·N ms |
| Poll.TimedOutPollWaitedLongEnough | modbus_io.c:191-207 | a timed-out wait slept at least the timeout plus one step |
| Poll.NegativeReturnMeansNoMatch | modbus_io.c:195-216 | for a target of 0 or 1, the return is negative exactly when the slot does not hold the target |
| Validation.OwnVerdict | modbus_io.c:233-342 | Unhandled exactly for M-codes other than 101 and 102; otherwise OK, BadNumberFormat or out of range; Unhandled and BadNumberFormat change nothing; words are only cleared, never set; only Q may change, to 1, and only for an M101 that is OK |
| Validation.ValidateChain | modbus_io.c:339-345 | M101 and M102 get this engine's verdict, never Unhandled; any other code with no previous validator is Unhandled with the block untouched |
| Validation.OwnedCodesStayHere | modbus_io.c:239-337 | for M101/M102 the status is OK, BadNumberFormat or out of range; it is BadNumberFormat exactly for a missing word, a non-integer D, E, P or Q, or a NaN R, with nothing claimed; OK exactly when well-formed and in range; otherwise D, P, Q and E (M101) or R (M102) are claimed |
| Validation.ValidatedBlockIsReady | modbus_io.c:262-333 | a block validated OK satisfies the executor's ranges; Q becomes 1 for E = 2 and 4; all other values are unchanged |
| Validation.OtherCodesDelegate | modbus_io.c:339-345 | any other M-code gets the previous validator's verdict, or Unhandled with the block untouched |
| GCode.IsInt | modbus_io.c:241-257 | `isintf`: the value is a number that converting to an integer leaves unchanged |
| GCode.IsNaN | modbus_io.c:314 | `isnanf`: the one value that is neither below, above nor equal to zero |
| GCode.Within | modbus_io.c:264-272 | the C range test "below lo or above hi" fails exactly for a NaN or a value within [lo, hi] |
| GCode.TruncExact | modbus_io.c:241 | a number is whole exactly when truncating it loses nothing |
| GCode.Trunc | modbus_io.c:355-360 | the C float-to-integer conversion truncates toward zero: within 1 of the value, on the side of zero |
| Executor.DeviceOf | modbus_io.c:355 | the device address equals D |
| Executor.IndexOf | modbus_io.c:356 | the register index is P - 1, below 9999 |
| Executor.ValueOf | modbus_io.c:360 | a whole-number Q is sent unchanged |
| Executor.CoilValue | modbus_io.c:361-363 | ON (0xFF00) exactly when the value is non-zero, otherwise OFF |
| Executor.CommandFrame | modbus_io.c:355-389 | the frame for E has function code E, address D and index P - 1; E 1 and 6 carry Q, E 5 the coil value, and E 2, 3 and 4 a count of 1; the reply length matches the function |
| Executor.TargetOf | modbus_io.c:393 | the M102 target is Q, 0 or 1 |
| Executor.ValidatedM101Frame | modbus_io.c:239-389 | an M101 block validated OK sends D, E and P - 1, with count 1 for E = 2, 3 and 4, and Q for E = 1 and 6 |
| Engine.ModbusIo.constructor | modbus_io.c:484-487 | initialisation as written: the engine starts with no frames, events or sleep, takes the transport oracle and the host's initial flags, and has no previous handlers whatever the host held |
| Engine.ModbusIo.Chained | modbus_io.c:484-489 | initialisation with the host's handlers saved first: the previous handlers are exactly those the host held |
| Engine.ForeignCodeLostAsWritten | modbus_io.c:223-227 | with initialisation as written, any M-code this engine does not own gets Ignore from the check, Unhandled with the block untouched from validation, and no forwarding from execution |
| Engine.ForeignCodeForwardedWhenChained | modbus_io.c:339-345 | with the host's handlers saved, any M-code this engine does not own gets the previous check's answer and the previous validator's verdict, and is forwarded exactly when a previous executor exists |
| Engine.ModbusIo.Check | modbus_io.c:223-227 | M101 and M102 are claimed; any other code gets the previous check's answer, or Ignore when there is none |
| Engine.ModbusIo.Failed | modbus_io.c:52-64 | always reports success; appends the cold-start-dependent failure events |
| Engine.ModbusIo.RxException | modbus_io.c:66-70 | an exception from the transport raises the failure events |
| Engine.ModbusIo.RxPacket | modbus_io.c:410-480 | the new slot and events are those of PacketEffect |
| Engine.ModbusIo.Send | modbus_io.c:83-91 | the new state is that of one Transact with the oracle's next reply |
| Engine.ModbusIo.WaitReadDiscreteInputs | modbus_io.c:189-217 | return value and final state are exactly those of PollFrom over the step budget of the timeout |
| Engine.ModbusIo.Validate | modbus_io.c:233-346 | the status, claimed words and rewritten values are those of ValidateChain; the M-code is unchanged |
| Engine.ModbusIo.Execute | modbus_io.c:353-408 | M101 sends exactly the CommandFrame; M102 runs the wait and raises GCodeTimeout exactly when it returns a negative value; other codes are forwarded only when a previous executor exists |

## Left out

- The transport (`modbus_send`, CRC generation, serial framing, retries) is an oracle. The k-th frame sent gets the k-th reply, and the matching callback runs before the send returns.
- The ADU buffer is modelled as its first 8 bytes. No request is longer and no expected reply is longer.
- `protocol_execute_realtime` and `hal.delay_ms` are no-ops. The delay is counted in `sleptMs`. `sys.abort` and `sys.cold_start` are fields of the engine that the host may set between commands. No engine method changes them, so an abort raised by the realtime hook during a wait is not modelled.
- The transport oracle is fixed when the engine is created. It gives the reply to the k-th frame sent since then.
- Poll.StepBudget: `ceilf` on a single-precision float is replaced by exact rational arithmetic. Float rounding of `20 * timeout` is not modelled.
- Poll.StepBudget: `uint_fast16_t` is assumed wide enough for 72 001 steps, as on 32-bit targets. A 16-bit truncation is not modelled.
- Float parameter values are NaN or a real number. Infinities are not modelled. Converting NaN to an integer, which is undefined in C, yields 0.
- Only the parameter words D, E, P, Q and R are modelled, the ones this engine reads or claims.
- A previous validator is a function of the M-code, words and values. A previous executor is modelled only by its presence, as a `Forwarded` event, so its effects are not modelled. The previous check is a function of the M-code.
- Status codes and M-codes are symbolic. Only the numbers 101, 102 and 0 (Ignore) are given.
- `system_raise_alarm`, `protocol_enqueue_foreground_task`, `report_warning` and `report_message` are events appended to a log.
- `MBIO_DEBUG` reporting and `mbio_report_options` are not modelled. Of `mbio_init`, only its effect on the previous handlers is modelled; see "## Findings".
- Frames.ReadCoils: a read of more than 8 coils has a normal reply longer than the fixed reply length 6 (section 6.1 of the Modbus Application Protocol Specification). The model keeps the length as the source sets it and does not model what the transport does with the longer reply.
- The `context` of a message is `Idle` or `Command`. Other pointer values are not modelled.

## Findings

| source | as written | input that shows it | evidently intended | confidence | as-written member | corrected member |
|---|---|---|---|---|---|---|
| modbus_io.c:484-487 | `mbio_init` overwrites the host's M-code handlers without copying them into `user_mcode`, which stays zero-initialised, so the forwarding at lines 226, 345 and 405 never happens | a plugin installed handlers for M110 before this one: `mbio_check(110)` returns Ignore, `mbio_validate` returns Unhandled and `mbio_execute` does nothing | save the host's handlers into `user_mcode` before replacing them, as `on_report_options` is saved at line 489 | high, not executed | Engine.ForeignCodeLostAsWritten | Engine.ModbusIo.Chained |
