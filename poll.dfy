/**
 * The wait command's loop (mbio_Wait_ReadDiscreteInputs) as a specification:
 * repeat a one-input read until the result slot holds the target, the step
 * budget runs out or the host has raised sys.abort.
 */
module Poll {
  import opened Frames
  import opened Transaction

  /** MBIO_WAIT_STEP, the nominal duration of one step in milliseconds. */
  const WaitStep: real := 50.0

  /** The smallest integer not below `x` (ceilf, in exact arithmetic). */
  function Ceil(x: real): (c: int)
    ensures x <= c as real < x + 1.0
  {
    -((-x).Floor)
  }

  /** The step budget for a timeout in seconds: one step per 50 ms, rounded up, plus one. */
  function StepBudget(timeout: real): (n: nat)
    requires timeout >= 0.0
    ensures n >= 1
    ensures (n - 2) as real * WaitStep < 1000.0 * timeout <= (n - 1) as real * WaitStep
  {
    Ceil(1000.0 / WaitStep * timeout) + 1
  }

  /** How a wait ends: the value returned (the target, or -1) and the state left behind. */
  datatype PollResult = PollResult(ret: int, bus: Bus)

  /** The read issued on every step: one discrete input. */
  function PollFrame(dev: byte, reg: u16): (r: Message)
    ensures IsCommandRequest(r) && FunctionCode(r) == ReadDiscreteInputsCode
    ensures Device(r) == dev && Register(r) == reg && Quantity(r) == 1
  {
    ReadDiscreteInputs(dev, reg, 1)
  }

  /**
   * The loop from the point where `delay` steps remain; `frame` is the read
   * issued on every step (PollFrame). The delay after an unmatched read is a
   * literal 50 ms in the loop, not MBIO_WAIT_STEP.
   */
  function PollFrom(b: Bus, delay: nat, frame: Message, target: int, env: Env): (r: PollResult)
    requires delay >= 1
    ensures b.sent < r.bus.sent && b.sleptMs <= r.bus.sleptMs
    ensures r.bus.slot == target ==> r.ret == target
    ensures r.bus.slot != target ==> r.ret == -1
    decreases delay
  {
    var b1 := Transact(b, frame, env);
    if b1.slot == target then PollResult(target, b1)
    else
      var b2 := b1.(sleptMs := b1.sleptMs + 50);
      if delay - 1 == 0 || env.abort then PollResult(-1, b2)
      else PollFrom(b2, delay - 1, frame, target, env)
  }

  /** One step of the wait: a read, then a match, the end of the wait, or the rest of the wait. */
  lemma PollStep(b: Bus, delay: nat, frame: Message, target: int, env: Env)
    requires delay >= 1
    ensures var b1 := Transact(b, frame, env);
      var b2 := b1.(sleptMs := b1.sleptMs + 50);
      && (b1.slot == target ==> PollFrom(b, delay, frame, target, env) == PollResult(target, b1))
      && (b1.slot != target && (delay == 1 || env.abort) ==> PollFrom(b, delay, frame, target, env) == PollResult(-1, b2))
      && (b1.slot != target && delay > 1 && !env.abort ==>
            PollFrom(b, delay, frame, target, env) == PollFrom(b2, delay - 1, frame, target, env))
  {
  }

  /** A wait whose first read finds the target returns it after that one frame, without any delay. */
  lemma FirstReadMatches(b: Bus, delay: nat, frame: Message, target: int, env: Env)
    requires delay >= 1 && Transact(b, frame, env).slot == target
    ensures var r := PollFrom(b, delay, frame, target, env);
      && r.ret == target && r.bus.slot == target
      && r.bus.sent == b.sent + [frame] && r.bus.sleptMs == b.sleptMs
      && r.bus.events[..|b.events|] == b.events
  {
  }

  /**
   * What any wait does: between 1 and `delay` reads, all of them the poll
   * frame, appended after the frames already sent; it returns the
   * target exactly when the slot holds the target at the end, and -1
   * otherwise; a delay of 50 ms follows every read that did not match.
   */
  lemma {:induction false} PollAccounting(b: Bus, delay: nat, frame: Message, target: int, env: Env)
    requires delay >= 1
    decreases delay
    ensures var r := PollFrom(b, delay, frame, target, env);
      var issued := |r.bus.sent| - |b.sent|;
      && 1 <= issued <= delay
      && r.bus.sent[..|b.sent|] == b.sent
      && (forall i :: |b.sent| <= i < |r.bus.sent| ==> r.bus.sent[i] == frame)
      && (r.bus.slot == target ==> r.ret == target)
      && (r.bus.slot != target ==> r.ret == -1)
      && r.bus.sleptMs == b.sleptMs + 50 * (if r.bus.slot == target then issued - 1 else issued)
  {
    var b1 := Transact(b, frame, env);
    assert b1.sent == b.sent + [frame];
    if b1.slot != target && delay - 1 != 0 && !env.abort {
      var b2 := b1.(sleptMs := b1.sleptMs + 50);
      PollAccounting(b2, delay - 1, frame, target, env);
      var r := PollFrom(b2, delay - 1, frame, target, env);
      assert r == PollFrom(b, delay, frame, target, env);
      assert r.bus.sent[..|b.sent|] == r.bus.sent[..|b2.sent|][..|b.sent|];
      assert r.bus.sent[|b.sent|] == b2.sent[|b.sent|];
    }
  }

  /** With sys.abort raised, the wait issues exactly one read. */
  lemma {:induction false} AbortedPollReadsOnce(b: Bus, delay: nat, frame: Message, target: int, env: Env)
    requires delay >= 1 && env.abort
    ensures |PollFrom(b, delay, frame, target, env).bus.sent| == |b.sent| + 1
  {
  }

  /** Without an abort, a wait that never matches uses up its whole budget, one read per step. */
  lemma {:induction false} UnmatchedPollUsesBudget(b: Bus, delay: nat, frame: Message, target: int, env: Env)
    requires delay >= 1 && !env.abort
    decreases delay
    ensures var r := PollFrom(b, delay, frame, target, env);
      r.bus.slot != target ==> |r.bus.sent| == |b.sent| + delay && r.bus.sleptMs == b.sleptMs + 50 * delay
  {
    var b1 := Transact(b, frame, env);
    if b1.slot != target && delay - 1 != 0 {
      UnmatchedPollUsesBudget(b1.(sleptMs := b1.sleptMs + 50), delay - 1, frame, target, env);
    }
  }

  /** A wait that times out has spent at least its timeout, plus one step, in delays. */
  lemma TimedOutPollWaitedLongEnough(b: Bus, timeout: real, frame: Message, target: int, env: Env)
    requires timeout >= 0.0 && !env.abort
    ensures var r := PollFrom(b, StepBudget(timeout), frame, target, env);
      r.bus.slot != target ==> (r.bus.sleptMs - b.sleptMs) as real >= 1000.0 * timeout + WaitStep
  {
    UnmatchedPollUsesBudget(b, StepBudget(timeout), frame, target, env);
  }

  /** For a target of 0 or 1, the wait returns a negative value exactly when the slot never matched. */
  lemma NegativeReturnMeansNoMatch(b: Bus, delay: nat, frame: Message, target: int, env: Env)
    requires delay >= 1 && (target == 0 || target == 1)
    ensures var r := PollFrom(b, delay, frame, target, env);
      r.ret < 0 <==> r.bus.slot != target
  {
    PollAccounting(b, delay, frame, target, env);
  }
}
