/**
 * Request frames for the six single-item requests of the Modbus Application
 * Protocol Specification V1.1b3 (sections 6.1 to 6.6). A frame is built fresh
 * for each transaction, tagged with this engine's context and handed to the
 * transport, which appends the CRC.
 */
module Frames {

  type byte = x: int | 0 <= x < 0x100
  type u16 = x: int | 0 <= x < 0x1_0000

  /**
   * The first eight bytes of the transport's ADU buffer: every request here
   * is eight bytes long with its CRC and no reply is longer. Bytes beyond
   * these are never touched by this engine.
   */
  const AduSize: nat := 8
  type Adu = s: seq<byte> | |s| == AduSize witness [0, 0, 0, 0, 0, 0, 0, 0]

  /** Context tags (mbio_response_t): which logical command a frame belongs to. */
  datatype Context = Idle | Command

  /** A transport message (modbus_message_t). */
  datatype Message = Message(context: Context, crcCheck: bool, adu: Adu, txLength: nat, rxLength: nat)

  /** Function codes, section 6 of the Modbus Application Protocol Specification. */
  const ReadCoilsCode: byte := 0x01
  const ReadDiscreteInputsCode: byte := 0x02
  const ReadHoldingRegistersCode: byte := 0x03
  const ReadInputRegistersCode: byte := 0x04
  const WriteCoilCode: byte := 0x05
  const WriteRegisterCode: byte := 0x06

  /** The Write Single Coil values for ON and OFF (section 6.5). */
  const CoilOn: u16 := 0xFF00
  const CoilOff: u16 := 0x0000

  /** MODBUS_SET_MSB16 / MODBUS_SET_LSB16: the two bytes of a big-endian 16-bit field. */
  function Msb(v: u16): (hi: byte)
    ensures 0 <= v - hi * 0x100 < 0x100
  {
    assert 0 <= v - (v / 0x100) * 0x100 < 0x100;
    var hi: byte :| 0 <= v - hi * 0x100 < 0x100; hi
  }
  function Lsb(v: u16): (lo: byte)
    ensures Msb(v) * 0x100 + lo == v
  {
    v - Msb(v) * 0x100
  }

  /** modbus_read_u16: a big-endian 16-bit field read back from two bytes; the high byte picks the block of 256. */
  function ReadU16(hi: byte, lo: byte): (v: u16)
    ensures hi * 0x100 <= v < (hi + 1) * 0x100 && v - hi * 0x100 == lo
  {
    hi * 0x100 + lo
  }

  /** Splitting a 16-bit value into its two bytes and reading them back gives the value. */
  lemma U16RoundTrip(v: u16)
    ensures ReadU16(Msb(v), Lsb(v)) == v
  {
  }

  /** Reading two bytes as a 16-bit value and splitting it again gives the two bytes. */
  lemma BytesRoundTrip(hi: byte, lo: byte)
    ensures Msb(ReadU16(hi, lo)) == hi && Lsb(ReadU16(hi, lo)) == lo
  {
  }

  /** The fields of a request, read back from its bytes. */
  function Device(m: Message): byte { m.adu[0] }
  function FunctionCode(m: Message): byte { m.adu[1] }
  function Register(m: Message): u16 { ReadU16(m.adu[2], m.adu[3]) }
  function Quantity(m: Message): u16 { ReadU16(m.adu[4], m.adu[5]) }

  /** What every request of this engine shares: its context tag, the CRC check and eight bytes to send. */
  predicate IsCommandRequest(m: Message) {
    m.context == Command && m.crcCheck && m.txLength == 8
  }

  /**
   * The length, without the two CRC bytes, of the normal response to a
   * single-item request (sections 6.1 to 6.6): address, function code, byte
   * count and one status byte for coils and discrete inputs; the same and a
   * second data byte for one register; an echo of the request for writes.
   */
  function SingleItemReplyLength(fc: byte): nat {
    if fc == ReadCoilsCode || fc == ReadDiscreteInputsCode then 4
    else if fc == ReadHoldingRegistersCode || fc == ReadInputRegistersCode then 5
    else 6
  }

  /** The request layout shared by the builders: address, function, register and value, big-endian. */
  function Request(fc: byte, dev: byte, reg: u16, value: u16, rxLength: nat): (r: Message)
    ensures IsCommandRequest(r) && Device(r) == dev && FunctionCode(r) == fc
    ensures Register(r) == reg && Quantity(r) == value && r.rxLength == rxLength
  {
    U16RoundTrip(reg);
    U16RoundTrip(value);
    Message(Command, true, [dev, fc, Msb(reg), Lsb(reg), Msb(value), Lsb(value), 0, 0], 8, rxLength)
  }

  /** mbio_ModBus_ReadCoils: read `value` coils starting at `reg` (section 6.1). */
  function ReadCoils(dev: byte, reg: u16, value: u16): (r: Message)
    ensures IsCommandRequest(r) && Device(r) == dev && FunctionCode(r) == ReadCoilsCode
    ensures Register(r) == reg && Quantity(r) == value
    ensures r.rxLength == 6 == SingleItemReplyLength(ReadCoilsCode) + 2
  {
    Request(ReadCoilsCode, dev, reg, value, 6)
  }

  /** mbio_ModBus_WriteCoil: write `value` (ON 0xFF00 or OFF 0x0000) to coil `reg` (section 6.5). */
  function WriteCoil(dev: byte, reg: u16, value: u16): (r: Message)
    ensures IsCommandRequest(r) && Device(r) == dev && FunctionCode(r) == WriteCoilCode
    ensures Register(r) == reg && Quantity(r) == value
    ensures r.rxLength == 8 == SingleItemReplyLength(WriteCoilCode) + 2
  {
    Request(WriteCoilCode, dev, reg, value, 8)
  }

  /** mbio_ModBus_ReadDiscreteInputs: read `value` discrete inputs starting at `reg` (section 6.2). */
  function ReadDiscreteInputs(dev: byte, reg: u16, value: u16): (r: Message)
    ensures IsCommandRequest(r) && Device(r) == dev && FunctionCode(r) == ReadDiscreteInputsCode
    ensures Register(r) == reg && Quantity(r) == value
    ensures r.rxLength == 6 == SingleItemReplyLength(ReadDiscreteInputsCode) + 2
  {
    Request(ReadDiscreteInputsCode, dev, reg, value, 6)
  }

  /** mbio_ModBus_ReadHoldingRegisters: read exactly one holding register (section 6.3). */
  function ReadHoldingRegisters(dev: byte, reg: u16): (r: Message)
    ensures IsCommandRequest(r) && Device(r) == dev && FunctionCode(r) == ReadHoldingRegistersCode
    ensures Register(r) == reg && Quantity(r) == 1
    ensures r.rxLength == 7 == SingleItemReplyLength(ReadHoldingRegistersCode) + 2
  {
    U16RoundTrip(reg);
    Message(Command, true, [dev, ReadHoldingRegistersCode, Msb(reg), Lsb(reg), 0x00, 0x01, 0, 0], 8, 7)
  }

  /** mbio_ModBus_ReadInputRegisters: read `value` input registers starting at `reg` (section 6.4). */
  function ReadInputRegisters(dev: byte, reg: u16, value: u16): (r: Message)
    ensures IsCommandRequest(r) && Device(r) == dev && FunctionCode(r) == ReadInputRegistersCode
    ensures Register(r) == reg && Quantity(r) == value
    ensures r.rxLength == 7 == SingleItemReplyLength(ReadInputRegistersCode) + 2
  {
    Request(ReadInputRegistersCode, dev, reg, value, 7)
  }

  /** mbio_ModBus_WriteRegister: write `value` to holding register `reg` (section 6.6). */
  function WriteRegister(dev: byte, reg: u16, value: u16): (r: Message)
    ensures IsCommandRequest(r) && Device(r) == dev && FunctionCode(r) == WriteRegisterCode
    ensures Register(r) == reg && Quantity(r) == value
    ensures r.rxLength == 8 == SingleItemReplyLength(WriteRegisterCode) + 2
  {
    Request(WriteRegisterCode, dev, reg, value, 8)
  }
}
