/**
 * One blocking transaction, seen from this engine. The transport (modbus_send,
 * CRC, serial framing, retries) is an oracle: the k-th frame sent gets the
 * k-th reply, and the blocking send returns only after the matching callback
 * (mbio_rx_packet or mbio_rx_exception) has run.
 */
module Transaction {
  import opened GCode
  import opened Frames
  import opened Decoder

  /** What the engine hands to the host: alarms, deferred foreground tasks, messages, delegated M-codes. */
  datatype Event =
    | RaiseAlarm(code: Status)        // system_raise_alarm
    | EnqueueAlarm(code: Status)      // protocol_enqueue_foreground_task(mbio_raise_alarm)
    | EnqueueWarning(text: string)    // protocol_enqueue_foreground_task(report_warning, text)
    | Warning(text: string)           // report_message(text, Message_Warning)
    | Forwarded(mcode: int)           // the previously installed executor was called

  /** How the transport completes a transaction: with a received packet, or with an exception. */
  datatype Reply = Packet(adu: Adu) | Exception(code: byte)

  /** The surroundings of one command: the transport oracle, sys.cold_start and sys.abort. */
  datatype Env = Env(replies: nat -> Reply, coldStart: bool, abort: bool)

  /**
   * The engine's observable state: the result slot sys.var5399, every frame
   * handed to the transport, every event raised, and the time spent in delays.
   */
  datatype Bus = Bus(slot: int, sent: seq<Message>, events: seq<Event>, sleptMs: nat)

  /** The events mbio_failed raises: deferred during cold start, immediate with a warning otherwise. */
  function FailureEvents(coldStart: bool): (r: seq<Event>)
    ensures coldStart ==> r == [EnqueueAlarm(ExpressionInvalidResult)]
    ensures !coldStart ==> r == [RaiseAlarm(ExpressionInvalidResult), EnqueueWarning("What's this?")]
  {
    if coldStart then [EnqueueAlarm(ExpressionInvalidResult)]
    else [RaiseAlarm(ExpressionInvalidResult), EnqueueWarning("What's this?")]
  }

  /** What mbio_rx_packet does with a received message. */
  function PacketEffect(b: Bus, msg: Message): (r: Bus)
    ensures r.sent == b.sent && r.sleptMs == b.sleptMs
    ensures r.slot == Decode(b.slot, msg)
    ensures HasErrorBit(msg.adu[0]) ==> r.events == b.events + [Warning("MODBUS ERROR")]
    ensures !HasErrorBit(msg.adu[0]) ==> r.events == b.events
  {
    if HasErrorBit(msg.adu[0]) then b.(events := b.events + [Warning("MODBUS ERROR")])
    else b.(slot := Decode(b.slot, msg))
  }

  /** A blocking send of `msg`: the frame is recorded and the reply's callback has run. */
  function Transact(b: Bus, msg: Message, env: Env): (r: Bus)
    ensures r.sent == b.sent + [msg] && r.sleptMs == b.sleptMs
    ensures |r.events| >= |b.events| && r.events[..|b.events|] == b.events
    ensures env.replies(|b.sent|).Exception? ==> r.slot == b.slot
    ensures env.replies(|b.sent|).Packet? ==> r.slot == Decode(b.slot, msg.(adu := env.replies(|b.sent|).adu))
    ensures env.replies(|b.sent|).Exception? ==> r.events == b.events + FailureEvents(env.coldStart)
    ensures env.replies(|b.sent|).Packet? ==>
      r.events == b.events + if HasErrorBit(env.replies(|b.sent|).adu[0]) then [Warning("MODBUS ERROR")] else []
  {
    var b1 := b.(sent := b.sent + [msg]);
    match env.replies(|b.sent|)
    case Packet(adu) => PacketEffect(b1, msg.(adu := adu))
    case Exception(_) => b1.(events := b1.events + FailureEvents(env.coldStart))
  }
}
