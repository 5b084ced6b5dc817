/**
 * The executor's mapping from a validated M101 block to the one request it
 * sends, and from a validated M102 block to the parameters of the wait.
 */
module Executor {
  import opened GCode
  import opened Frames
  import opened Validation

  /** `(char)values.d`: the device address of a validated block. */
  function DeviceOf(v: Values): (dev: byte)
    requires IsInt(v.d) && 0.0 <= v.d.x <= 247.0
    ensures dev as real == v.d.x
  {
    Trunc(v.d)
  }

  /** `(uint16_t)values.p - 1`: the zero-based register index of a validated block. */
  function IndexOf(v: Values): (reg: u16)
    requires IsInt(v.p) && 1.0 <= v.p.x <= 9999.0
    ensures reg as real == v.p.x - 1.0 && reg < 9999
  {
    Trunc(v.p) - 1
  }

  /** `(uint16_t)values.q`: the value word as sent, truncated toward zero. */
  function ValueOf(v: Values): (q: u16)
    requires Within(v.q, 0.0, 65535.0)
    ensures IsInt(v.q) ==> q as real == v.q.x
  {
    Trunc(v.q)
  }

  /** The value sent with a Write Single Coil: ON (0xFF00) for any positive value, OFF (0x0000) for zero. */
  function CoilValue(q: u16): (c: u16)
    ensures c == CoilOn || c == CoilOff
    ensures c == CoilOn <==> q != 0
  {
    if q > 0 then 0xFF00 else 0
  }

  /** The request an M101 block sends, chosen by its function code E. */
  function CommandFrame(v: Values): (m: Message)
    requires M101Ready(v)
    ensures IsCommandRequest(m) && Device(m) == DeviceOf(v) && Register(m) == IndexOf(v)
    ensures FunctionCode(m) as real == v.e.x
    ensures v.e == Num(1.0) || v.e == Num(6.0) ==> Quantity(m) == ValueOf(v)
    ensures v.e == Num(2.0) || v.e == Num(3.0) || v.e == Num(4.0) ==> Quantity(m) == 1
    ensures v.e == Num(5.0) ==> Quantity(m) == CoilValue(ValueOf(v))
    ensures m.rxLength == SingleItemReplyLength(FunctionCode(m)) + 2
  {
    var dev, reg, e := DeviceOf(v), IndexOf(v), Trunc(v.e);
    var value := if e == 5 then CoilValue(ValueOf(v)) else ValueOf(v);
    if e == 1 then ReadCoils(dev, reg, value)
    else if e == 2 then ReadDiscreteInputs(dev, reg, 1)
    else if e == 4 then ReadInputRegisters(dev, reg, 1)
    else if e == 3 then ReadHoldingRegisters(dev, reg)
    else if e == 5 then WriteCoil(dev, reg, value)
    else WriteRegister(dev, reg, value)
  }

  /** `(int32_t)values.q`: the target of a validated M102 block, 0 or 1. */
  function TargetOf(v: Values): (t: int)
    requires v.q == Num(0.0) || v.q == Num(1.0)
    ensures t as real == v.q.x && (t == 0 || t == 1)
  {
    Trunc(v.q)
  }

  /**
   * Validation and execution together: an M101 block that validates OK sends
   * its D as the address, its E as the function code and P - 1 as the
   * register index, and always reads one item for E = 2, 3 and 4.
   */
  lemma ValidatedM101Frame(w: Words, v: Values, prev: Wrappers.Option<Validator>)
    requires ValidateChain(Generic1, w, v, prev).status == OK
    ensures var r := ValidateChain(Generic1, w, v, prev).values;
      M101Ready(r) &&
      var m := CommandFrame(r);
      && Device(m) as real == v.d.x
      && FunctionCode(m) as real == v.e.x
      && Register(m) as real == v.p.x - 1.0
      && (v.e == Num(2.0) || v.e == Num(3.0) || v.e == Num(4.0) ==> Quantity(m) == 1)
      && (v.e == Num(1.0) || v.e == Num(6.0) ==> Quantity(m) == ValueOf(v))
  {
    ValidatedBlockIsReady(Generic1, w, v, prev);
  }
}
