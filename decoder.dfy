/**
 * The response decoder (mbio_rx_packet): what a completed transaction leaves
 * in the shared result slot, sys.var5399. Alongside it, the normal and
 * exception responses a device sends under the Modbus Application Protocol
 * Specification V1.1b3, and the round trips between the two.
 */
module Decoder {
  import opened Frames

  /**
   * The decoder's error test, `adu[0] & 0x80`. It looks at the first byte of
   * the response, the device address, and not at the function code where
   * section 7 of the protocol places the exception flag.
   */
  predicate HasErrorBit(b: byte) {
    b >= 0x80
  }

  /** The new value of the result slot once `msg` has been received. */
  function Decode(slot: int, msg: Message): (r: int)
    ensures r != slot ==> !HasErrorBit(msg.adu[0]) && msg.context == Command
    ensures r != slot ==> 1 <= msg.adu[1] <= 4
    ensures msg.adu[1] == ReadDiscreteInputsCode && r != slot ==> r == 0 || r == 1
    ensures 0 <= r < 0x1_0000 || r == slot
  {
    if HasErrorBit(msg.adu[0]) || msg.context != Command then slot
    else if msg.adu[1] == ReadDiscreteInputsCode then msg.adu[3] % 2
    else if msg.adu[1] == ReadCoilsCode then msg.adu[3]
    else if msg.adu[1] == ReadInputRegistersCode || msg.adu[1] == ReadHoldingRegistersCode then
      ReadU16(msg.adu[3], msg.adu[4])
    else slot
  }

  /** The bytes the transport received, followed by what is left in the rest of its buffer. */
  function Received(payload: seq<byte>, rest: seq<byte>): Adu
    requires |payload| + |rest| == AduSize
  {
    payload + rest
  }

  /** Normal response to a coil or discrete-input read of at most eight items (sections 6.1, 6.2). */
  function StatusResponse(req: Message, status: byte): seq<byte> {
    [Device(req), FunctionCode(req), 1, status]
  }

  /** Normal response to a read of one register (sections 6.3, 6.4). */
  function RegisterResponse(req: Message, value: u16): seq<byte> {
    [Device(req), FunctionCode(req), 2, Msb(value), Lsb(value)]
  }

  /** Normal response to a single write: the request echoed (sections 6.5, 6.6). */
  function EchoResponse(req: Message): seq<byte> {
    req.adu[..6]
  }

  /** Exception response (section 7): the function code with its high bit set, then the exception code. */
  function ExceptionResponse(req: Message, code: byte): seq<byte>
    requires FunctionCode(req) < 0x80
  {
    [Device(req), FunctionCode(req) + 0x80, code]
  }

  /**
   * A read of one to eight coils returns its status byte and a read of one
   * to eight discrete inputs its lowest bit, whatever follows the response
   * in the buffer, provided the device address has the high bit clear.
   */
  lemma StatusRoundTrip(slot: int, dev: byte, reg: u16, count: u16, status: byte, rest: seq<byte>)
    requires dev < 0x80 && 1 <= count <= 8 && |rest| == AduSize - 4
    ensures var req := ReadCoils(dev, reg, count);
      |StatusResponse(req, status)| == req.rxLength - 2 &&
      Decode(slot, req.(adu := Received(StatusResponse(req, status), rest))) == status
    ensures var req := ReadDiscreteInputs(dev, reg, count);
      |StatusResponse(req, status)| == req.rxLength - 2 &&
      var r := Decode(slot, req.(adu := Received(StatusResponse(req, status), rest)));
      (r == 0 || r == 1) && (r == 1 <==> status % 2 == 1)
  {
  }

  /** A one-register read returns the register's 16-bit value: bytes 0x00 0x2A give 42. */
  lemma RegisterRoundTrip(slot: int, dev: byte, reg: u16, value: u16, rest: seq<byte>)
    requires dev < 0x80 && |rest| == AduSize - 5
    ensures var req := ReadHoldingRegisters(dev, reg);
      |RegisterResponse(req, value)| == req.rxLength - 2 &&
      Decode(slot, req.(adu := Received(RegisterResponse(req, value), rest))) == value
    ensures var req := ReadInputRegisters(dev, reg, 1);
      |RegisterResponse(req, value)| == req.rxLength - 2 &&
      Decode(slot, req.(adu := Received(RegisterResponse(req, value), rest))) == value
  {
  }

  /** The echo that acknowledges a write fits the expected length and leaves the result slot alone. */
  lemma EchoKeepsSlot(slot: int, dev: byte, reg: u16, value: u16, rest: seq<byte>)
    requires |rest| == AduSize - 6
    ensures var req := WriteCoil(dev, reg, value);
      |EchoResponse(req)| == req.rxLength - 2 &&
      Decode(slot, req.(adu := Received(EchoResponse(req), rest))) == slot
    ensures var req := WriteRegister(dev, reg, value);
      |EchoResponse(req)| == req.rxLength - 2 &&
      Decode(slot, req.(adu := Received(EchoResponse(req), rest))) == slot
  {
  }

  /** An exception response to any request of this engine never changes the result slot. */
  lemma ExceptionKeepsSlot(slot: int, req: Message, code: byte, rest: seq<byte>)
    requires 1 <= FunctionCode(req) <= 6 && |rest| == AduSize - 3
    ensures Decode(slot, req.(adu := Received(ExceptionResponse(req, code), rest))) == slot
  {
  }

  /**
   * Because the error test reads the address byte, no reply from a device
   * whose address is 128 to 247 is ever decoded: a holding-register value of
   * 42 from device 200 leaves the slot as it was.
   */
  lemma HighAddressReplyIgnored(slot: int, msg: Message)
    requires msg.adu[0] >= 0x80
    ensures Decode(slot, msg) == slot
  {
  }

  /**
   * The decoder reads only bytes that come before the CRC of the reply it
   * expects: two replies that agree on those bytes decode alike.
   */
  lemma DecodeReadsOnlyPayload(slot: int, m1: Message, m2: Message)
    requires m1.context == m2.context
    requires 1 <= m1.adu[1] <= 6
    requires m1.adu[..SingleItemReplyLength(m1.adu[1])] == m2.adu[..SingleItemReplyLength(m1.adu[1])]
    ensures Decode(slot, m1) == Decode(slot, m2)
  {
    var n := SingleItemReplyLength(m1.adu[1]);
    assert m1.adu[0] == m1.adu[..n][0] && m2.adu[0] == m2.adu[..n][0];
    assert m1.adu[1] == m1.adu[..n][1] && m2.adu[1] == m2.adu[..n][1];
    assert m1.adu[3] == m1.adu[..n][3] && m2.adu[3] == m2.adu[..n][3];
    if n >= 5 {
      assert m1.adu[4] == m1.adu[..n][4] && m2.adu[4] == m2.adu[..n][4];
    }
  }
}
