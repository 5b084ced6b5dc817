/**
 * The command transaction engine: the handlers this plugin installs for M101
 * (one transaction) and M102 (wait for a discrete input), the blocking send,
 * the two transport callbacks and the wait loop, over the shared result slot.
 */
module Engine {
  import opened GCode
  import opened Frames
  import opened Transaction
  import opened Poll
  import opened Validation
  import opened Executor

  class ModbusIo {
    /** sys.var5399: the last value decoded from a read. */
    var var5399: int
    /** Every frame handed to the transport, oldest first. */
    var sent: seq<Message>
    /** Alarms, deferred tasks, messages and delegated M-codes, oldest first. */
    var events: seq<Event>
    /** Time spent in hal.delay_ms, in milliseconds. */
    var sleptMs: nat

    /** The transport oracle: the reply to the k-th frame sent since start-up. */
    const replies: nat -> Reply
    /** sys.cold_start and sys.abort: the host may change them between commands; the engine never does. */
    var coldStart: bool
    var abort: bool
    /** The handlers this engine passes other M-codes to (the file-static user_mcode). */
    const prev: Handlers

    function State(): Bus
      reads this
    {
      Bus(var5399, sent, events, sleptMs)
    }

    /** The transport and the host flags as the engine sees them now. */
    function Environment(): Env
      reads this
    {
      Env(replies, coldStart, abort)
    }

    /**
     * mbio_init as written: the host's handlers `found` are overwritten by
     * this engine's own without being saved first, so user_mcode keeps its
     * zero initialisation and there is nothing to pass other M-codes to.
     */
    constructor (env: Env, found: Handlers, slot: int)
      ensures Environment() == env && prev == NoHandlers
      ensures State() == Bus(slot, [], [], 0)
    {
      replies, coldStart, abort := env.replies, env.coldStart, env.abort;
      prev := NoHandlers;
      var5399 := slot;
      sent := [];
      events := [];
      sleptMs := 0;
    }

    /**
     * mbio_init as the chain at the ends of mbio_check, mbio_validate and
     * mbio_execute expects it: the host's handlers are saved before they
     * are replaced, as on_report_options is.
     */
    constructor Chained(env: Env, found: Handlers, slot: int)
      ensures Environment() == env && prev == found
      ensures State() == Bus(slot, [], [], 0)
    {
      replies, coldStart, abort := env.replies, env.coldStart, env.abort;
      prev := found;
      var5399 := slot;
      sent := [];
      events := [];
      sleptMs := 0;
    }

    /**
     * mbio_check: M101 and M102 are claimed here; anything else is what the
     * previous check says, or UserMCode_Ignore when there is none.
     */
    function Check(mcode: int): (r: int)
      ensures Owned(mcode) ==> r == mcode
      ensures !Owned(mcode) && prev.check.None? ==> r == Ignore
      ensures !Owned(mcode) && prev.check.Some? ==> r == prev.check.value(mcode)
    {
      if mcode == Generic1 || mcode == Generic2 then mcode
      else if prev.check.Some? then prev.check.value(mcode)
      else Ignore
    }

    /** mbio_failed: raise the alarm, deferred during cold start; always reports success. */
    method Failed() returns (ok: bool)
      modifies this`events
      ensures ok
      ensures events == old(events) + FailureEvents(coldStart)
    {
      ok := true;
      if coldStart {
        events := events + [EnqueueAlarm(ExpressionInvalidResult)];
      } else {
        events := events + [RaiseAlarm(ExpressionInvalidResult)];
        events := events + [EnqueueWarning("What's this?")];
      }
    }

    /** mbio_rx_exception: the transport reports an exception; code and context are ignored. */
    method RxException(code: byte, context: Context)
      modifies this`events
      ensures events == old(events) + FailureEvents(coldStart)
    {
      var _ := Failed();
    }

    /** mbio_rx_packet: decode a received packet into the result slot. */
    method RxPacket(msg: Message)
      modifies this`var5399, this`events
      ensures State() == PacketEffect(old(State()), msg)
    {
      if msg.adu[0] < 0x80 {
        match msg.context
        case Command =>
          if msg.adu[1] == ReadDiscreteInputsCode {
            var5399 := msg.adu[3] % 2;
          } else if msg.adu[1] == ReadCoilsCode {
            var5399 := msg.adu[3];
          } else if msg.adu[1] == ReadInputRegistersCode || msg.adu[1] == ReadHoldingRegistersCode {
            var5399 := ReadU16(msg.adu[3], msg.adu[4]);
          }
        case Idle =>
      } else {
        events := events + [Warning("MODBUS ERROR")];
      }
    }

    /**
     * mbio_modbus_send_command: a blocking send. The reply to the k-th frame
     * is the oracle's k-th reply, and its callback runs before the send returns.
     */
    method Send(msg: Message)
      modifies this`var5399, this`sent, this`events
      ensures State() == Transact(old(State()), msg, Environment())
    {
      var reply := replies(|sent|);
      sent := sent + [msg];
      match reply
      case Packet(adu) => RxPacket(msg.(adu := adu));
      case Exception(code) => RxException(code, msg.context);
    }

    /**
     * mbio_Wait_ReadDiscreteInputs: read one discrete input until the slot
     * holds `value`, the step budget for `timeout` seconds is spent, or
     * sys.abort is seen after a step. Returns `value` on a match, else -1.
     */
    method WaitReadDiscreteInputs(dev: byte, reg: u16, value: int, timeout: real) returns (ret: int)
      requires timeout >= 0.0
      modifies this`var5399, this`sent, this`events, this`sleptMs
      ensures PollResult(ret, State()) == PollFrom(old(State()), StepBudget(timeout), PollFrame(dev, reg), value, Environment())
    {
      ret := -1;
      var delay := StepBudget(timeout);
      var frame := PollFrame(dev, reg);
      ghost var goal := PollFrom(State(), delay, frame, value, Environment());
      while true
        invariant 1 <= delay && ret == -1
        invariant goal == PollFrom(State(), delay, frame, value, Environment())
        decreases delay
      {
        PollStep(State(), delay, frame, value, Environment());
        Send(frame);
        if var5399 == value {
          ret := value;
          break;
        }
        if delay != 0 {
          sleptMs := sleptMs + 50;
        } else {
          break;
        }
        delay := delay - 1;
        if delay == 0 || abort {
          break;
        }
      }
    }

    /**
     * mbio_validate: check M101 and M102 parameter words, claim them and
     * normalise Q; pass any other M-code to the previous validator.
     */
    method Validate(block: ParserBlock) returns (status: Status)
      modifies block
      ensures block.userMCode == old(block.userMCode)
      ensures var r := ValidateChain(old(block.userMCode), old(block.words), old(block.values), prev.validate);
        status == r.status && block.words == r.words && block.values == r.values
    {
      var state := GcodeValueWordMissing;
      if block.userMCode == Generic1 {
        if !block.words.d || !IsInt(block.values.d) {
          state := BadNumberFormat;
        }
        if !block.words.e || !IsInt(block.values.e) {
          state := BadNumberFormat;
        }
        if !block.words.p || !IsInt(block.values.p) {
          state := BadNumberFormat;
        }
        if block.words.q && !IsInt(block.values.q) {
          state := BadNumberFormat;
        }
        if state != BadNumberFormat {
          var v := block.values;
          if Below(v.d, 0.0) || Above(v.d, 247.0)
            || (!Equals(v.e, 2.0) && !Equals(v.e, 4.0) && !Equals(v.e, 5.0)
                && !Equals(v.e, 6.0) && !Equals(v.e, 3.0) && !Equals(v.e, 1.0))
            || Below(v.p, 1.0) || Above(v.p, 9999.0)
            || Below(v.q, 0.0) || Above(v.q, 65535.0)
          {
            state := GcodeValueOutOfRange;
          } else {
            var e := Trunc(v.e);
            if e == 2 || e == 4 {
              block.values := block.values.(q := Num(1.0));
            }
            state := OK;
          }
          block.words := block.words.(d := false, e := false, p := false, q := false);
        }
      } else if block.userMCode == Generic2 {
        if !block.words.d || !IsInt(block.values.d) {
          state := BadNumberFormat;
        }
        if !block.words.p || !IsInt(block.values.p) {
          state := BadNumberFormat;
        }
        if !block.words.q || !IsInt(block.values.q) {
          state := BadNumberFormat;
        }
        if !block.words.r || IsNaN(block.values.r) {
          state := BadNumberFormat;
        }
        if state != BadNumberFormat {
          var v := block.values;
          if Below(v.d, 0.0) || Above(v.d, 247.0)
            || Below(v.p, 1.0) || Above(v.p, 9999.0)
            || Below(v.q, 0.0) || Above(v.q, 1.0)
            || Below(v.r, 0.0) || Above(v.r, 3600.0)
          {
            state := GcodeValueOutOfRange;
          } else {
            state := OK;
          }
          block.words := block.words.(d := false, p := false, q := false, r := false);
        }
      } else {
        state := Unhandled;
      }
      if state == Unhandled && prev.validate.Some? {
        var r := prev.validate.value(block.userMCode, block.words, block.values);
        block.words, block.values := r.words, r.values;
        status := r.status;
      } else {
        status := state;
      }
    }

    /**
     * mbio_execute: send the one request of a validated M101, or run the wait
     * of a validated M102 and raise the timeout alarm when it returns a
     * negative value; pass any other M-code to the previous executor.
     */
    method Execute(block: ParserBlock)
      requires Ready(block.userMCode, block.values)
      modifies this`var5399, this`sent, this`events, this`sleptMs
      ensures var m, v := block.userMCode, block.values;
        && (m == Generic1 ==> State() == Transact(old(State()), CommandFrame(v), Environment()))
        && (m == Generic2 ==>
              var p := PollFrom(old(State()), StepBudget(v.r.x), PollFrame(DeviceOf(v), IndexOf(v)), TargetOf(v), Environment());
              State() == p.bus.(events := p.bus.events + if p.ret < 0 then [RaiseAlarm(GCodeTimeout)] else []))
        && (!Owned(m) ==> State() == old(State()).(events := old(events) + if prev.execute then [Forwarded(m)] else []))
    {
      var handled := true;
      var m, v := block.userMCode, block.values;
      if m == Generic1 {
        Send(CommandFrame(v));
      } else if m == Generic2 {
        var ret := WaitReadDiscreteInputs(DeviceOf(v), IndexOf(v), TargetOf(v), v.r.x);
        if ret < 0 {
          events := events + [RaiseAlarm(GCodeTimeout)];
        }
      } else {
        handled := false;
      }
      if !handled && prev.execute {
        events := events + [Forwarded(m)];
      }
    }
  }

  /**
   * An engine initialised as written loses every M-code a plugin installed
   * before it: for M110, say, the check answers Ignore, validation reports
   * it unhandled with the block untouched, and execution forwards nothing,
   * whatever handlers the host held.
   */
  lemma ForeignCodeLostAsWritten(e: ModbusIo, mcode: int, w: Words, v: Values)
    requires e.prev == NoHandlers && !Owned(mcode)
    ensures e.Check(mcode) == Ignore
    ensures ValidateChain(mcode, w, v, e.prev.validate) == Verdict(Unhandled, w, v)
    ensures !e.prev.execute
  {
    OtherCodesDelegate(mcode, w, v, e.prev.validate);
  }

  /**
   * An engine whose initialisation saved the host's handlers passes every
   * M-code it does not own on to them.
   */
  lemma ForeignCodeForwardedWhenChained(e: ModbusIo, found: Handlers, mcode: int, w: Words, v: Values)
    requires e.prev == found && !Owned(mcode)
    ensures found.check.Some? ==> e.Check(mcode) == found.check.value(mcode)
    ensures found.validate.Some? ==> ValidateChain(mcode, w, v, e.prev.validate) == found.validate.value(mcode, w, v)
    ensures e.prev.execute == found.execute
  {
    OtherCodesDelegate(mcode, w, v, e.prev.validate);
  }
}
