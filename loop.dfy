/**
 * The execution driver of `main`: boot register setup and the do-while loop that per
 * iteration advances the RTC, steps the CPU, updates both UARTs (raising PLIC sources 1
 * and 2), and delivers the composed interrupt word to the CPU.
 */
module MachLoop {
  import opened Rv
  import Rtc
  import Irq
  import MachBus

  /**
   * The CPU and devices as the loop sees them: one opaque state `S` and the calls the
   * loop makes on it. None of these is part of this model. The timer words live in the
   * CPU's CSRs: the step (reads of `time`/`timeh`) and the CLINT's timer comparison are
   * handed the current clock, and neither can write it.
   */
  datatype Platform<!S> = Platform(
    writeReg: (S, nat, u32) -> S,                // cpu.r[i] = v
    step: (S, Rtc.Clock) -> S,                   // rv_step, reading mtime/mtimeh
    uartUpdate: (S, MachBus.Device) -> (S, bool), // rv_uart_update: true when it wants an interrupt
    plicIrq: (S, nat) -> S,                      // rv_plic_irq on plic0
    clintMsi: S -> bool,                         // rv_clint_msi(&clint0, 0)
    clintMti: (S, Rtc.Clock) -> bool,            // rv_clint_mti(&clint0, 0): mtime against mtimecmp
    plicMei: S -> bool,                          // rv_plic_mei(&plic0, 0)
    deliver: (S, bv32) -> S)                     // rv_irq

  /** What one iteration passed on: whether the timer moved, and the word given to `rv_irq`. */
  datatype Iteration = Iteration(ticked: bool, irq: bv32)

  /** The loop's state: the RTC (cadence counter and mtime words), the rest, and a log of iterations. */
  datatype LoopState<S> = LoopState(clock: Rtc.Clock, sys: S, log: seq<Iteration>)

  /** Register a0 (hart id) and a1 (device tree address) handed to the boot loader. */
  const A0: u32 := 0
  const A1: u32 := MachBus.RAM_BASE + MachBus.DTB_OFFSET

  /** The boot registers say hart 0 and point into RAM, at the device tree `load` placed. */
  lemma BootRegistersPointAtDtb()
    ensures A0 == 0
    ensures MachBus.InRam(A1) && A1 - MachBus.RAM_BASE == MachBus.DTB_OFFSET
  {
  }

  /** `cpu.r[10] = 0; cpu.r[11] = MACH_RAM_BASE + MACH_DTB_OFFSET`. */
  function Boot<S>(p: Platform<S>, cpu: S): S
  {
    p.writeReg(p.writeReg(cpu, 10, A0), 11, A1)
  }

  /** The pending word of the current state and timer, as composed for `rv_irq`. */
  function PendingWord<S>(p: Platform<S>, bits: Irq.IrqBits, s: S, clock: Rtc.Clock): bv32
  {
    Irq.Line(bits, p.clintMsi(s), p.clintMti(s, clock), p.plicMei(s))
  }

  /** The CPU step and the UART updates of one iteration, with the timer as the RTC left it. */
  function StepAndUpdate<S>(p: Platform<S>, s: S, clock: Rtc.Clock): S
  {
    var s1 := p.step(s, clock);
    var (s2, irq0) := p.uartUpdate(s1, MachBus.Uart0);
    var s3 := if irq0 then p.plicIrq(s2, 1) else s2;
    var (s4, irq1) := p.uartUpdate(s3, MachBus.Uart1);
    if irq1 then p.plicIrq(s4, 2) else s4
  }

  /** What iteration `st -> Body(st)` records: whether the timer moves, and the word delivered. */
  function Record<S>(p: Platform<S>, bits: Irq.IrqBits, st: LoopState<S>): Iteration
  {
    var clock := Rtc.Advance(st.clock);
    Iteration(clock.period == 0, PendingWord(p, bits, StepAndUpdate(p, st.sys, clock), clock))
  }

  /**
   * One iteration of the loop body. The RTC advances before the step; the word is
   * composed after the updates and delivered whether or not it is 0.
   */
  function Body<S>(p: Platform<S>, bits: Irq.IrqBits, st: LoopState<S>): LoopState<S>
  {
    var clock := Rtc.Advance(st.clock);
    var s := StepAndUpdate(p, st.sys, clock);
    var irq := PendingWord(p, bits, s, clock);
    LoopState(clock, p.deliver(s, irq), st.log + [Iteration(clock.period == 0, irq)])
  }

  /** The state after `k` iterations. */
  function Iterate<S>(p: Platform<S>, bits: Irq.IrqBits, st: LoopState<S>, k: nat): LoopState<S>
  {
    if k == 0 then st else Body(p, bits, Iterate(p, bits, st, k - 1))
  }

  /** Every iteration advances the RTC once: after `k` iterations the clock has advanced `k` times. */
  lemma {:induction false} IterateClock<S>(p: Platform<S>, bits: Irq.IrqBits, st: LoopState<S>, k: nat)
    ensures Iterate(p, bits, st, k).clock == Rtc.AdvanceN(st.clock, k)
  {
    if k > 0 {
      IterateClock(p, bits, st, k - 1);
    }
  }

  /** Every iteration calls `rv_irq` once, whatever the word: after `k` iterations the log has grown by `k`. */
  lemma {:induction false} IterateLog<S>(p: Platform<S>, bits: Irq.IrqBits, st: LoopState<S>, k: nat)
    ensures |Iterate(p, bits, st, k).log| == |st.log| + k
  {
    if k > 0 {
      IterateLog(p, bits, st, k - 1);
      BodyLog(p, bits, Iterate(p, bits, st, k - 1));
    }
  }

  /**
   * Log entry `i` (counting from the start) is what iteration `i + 1` did: the word
   * delivered is the pending word after that iteration's step and UART updates, and the
   * timer moved exactly when the cadence counter came round to 0.
   */
  lemma {:induction false} LogRecordsEachIteration<S>(p: Platform<S>, bits: Irq.IrqBits, st: LoopState<S>, k: nat, i: nat)
    requires i < k
    ensures |Iterate(p, bits, st, k).log| == |st.log| + k
    ensures Iterate(p, bits, st, k).log[|st.log| + i] == Record(p, bits, Iterate(p, bits, st, i))
  {
    LastEntry(p, bits, st, i);
    LogKept(p, bits, st, i + 1, k, |st.log| + i);
  }

  /** Iteration `i + 1` appends its record at position `|st.log| + i`. */
  lemma LastEntry<S>(p: Platform<S>, bits: Irq.IrqBits, st: LoopState<S>, i: nat)
    ensures |Iterate(p, bits, st, i + 1).log| == |st.log| + i + 1
    ensures Iterate(p, bits, st, i + 1).log[|st.log| + i] == Record(p, bits, Iterate(p, bits, st, i))
  {
    var before := Iterate(p, bits, st, i);
    IterateLog(p, bits, st, i);
    BodyLog(p, bits, before);
  }

  /** Iterating on never rewrites the log: entry `n`, once written after `j` iterations, stays. */
  lemma {:induction false} LogKept<S>(p: Platform<S>, bits: Irq.IrqBits, st: LoopState<S>, j: nat, k: nat, n: nat)
    requires j <= k && n < |st.log| + j
    ensures |Iterate(p, bits, st, k).log| == |st.log| + k
    ensures n < |Iterate(p, bits, st, j).log|
    ensures Iterate(p, bits, st, k).log[n] == Iterate(p, bits, st, j).log[n]
  {
    IterateLog(p, bits, st, k);
    IterateLog(p, bits, st, j);
    if j < k {
      LogKept(p, bits, st, j, k - 1, n);
      BodyLog(p, bits, Iterate(p, bits, st, k - 1));
    }
  }

  /** One iteration appends its record to the log. */
  lemma BodyLog<S>(p: Platform<S>, bits: Irq.IrqBits, st: LoopState<S>)
    ensures Body(p, bits, st).log == st.log + [Record(p, bits, st)]
  {
  }

  /**
   * Starting from `rtc_period == 0`, after `k` iterations the 64-bit timer has advanced by
   * `k / 4096` modulo 2^64: once per 4096 iterations, first on the 4096th.
   */
  lemma TimerInLoop<S>(p: Platform<S>, bits: Irq.IrqBits, st: LoopState<S>, k: nat)
    requires st.clock.period == 0
    ensures Rtc.Time(Iterate(p, bits, st, k).clock) == (Rtc.Time(st.clock) + k / Rtc.PERIOD) % Rtc.TIME_RANGE
  {
    IterateClock(p, bits, st, k);
    Rtc.Cadence(st.clock, k);
  }

  /**
   * The word delivered by iteration `i + 1` is composed on that iteration's state with the
   * clock advanced `i + 1` times, so (by `PendingTimerBit`) its timer bit is the CLINT's
   * timer comparison against the timer the cadence produced.
   */
  lemma DeliveredWordSeesClock<S>(p: Platform<S>, bits: Irq.IrqBits, st: LoopState<S>, k: nat, i: nat)
    requires i < k
    ensures |Iterate(p, bits, st, k).log| == |st.log| + k
    ensures var clock := Rtc.AdvanceN(st.clock, i + 1);
            var s := StepAndUpdate(p, Iterate(p, bits, st, i).sys, clock);
            Iterate(p, bits, st, k).log[|st.log| + i].irq == PendingWord(p, bits, s, clock)
  {
    LogRecordsEachIteration(p, bits, st, k, i);
    IterateClock(p, bits, st, i);
  }

  /** The timer bit of the composed word is the CLINT's timer comparison. */
  lemma PendingTimerBit<S>(p: Platform<S>, bits: Irq.IrqBits, s: S, clock: Rtc.Clock)
    requires Irq.WellFormed(bits)
    ensures PendingWord(p, bits, s, clock) & Irq.Mask(bits.cti) != 0 <==> p.clintMti(s, clock)
  {
    Irq.TimerBit(bits, p.clintMsi(s), p.clintMti(s, clock), p.plicMei(s));
  }

  /** The state the loop starts in, after the boot registers are set. */
  function Start<S>(p: Platform<S>, cpu: S, mtime: u32, mtimeh: u32): (st: LoopState<S>)
    ensures st.clock.period == 0 && st.log == []
  {
    LoopState(Rtc.Clock(0, mtime, mtimeh), Boot(p, cpu), [])
  }

  /**
   * Lines 123-139 of `main`: `do { ... } while (!ninst || ctr++ < ninst)`. The loop has no
   * bound when `ninst` is 0, so `fuel` caps the number of iterations looked at; the run
   * exits only when the loop itself stops. With `ninst == N > 0` the body runs N + 1 times
   * and `ctr` ends at N + 1; with `ninst == 0` it never stops and `ctr` stays 0.
   */
  method Run<S>(p: Platform<S>, bits: Irq.IrqBits, cpu: S, mtime: u32, mtimeh: u32, ninst: nat, fuel: nat)
    returns (st: LoopState<S>, iterations: nat, ctr: nat, exited: bool)
    ensures exited <==> 0 < ninst && ninst + 1 <= fuel
    ensures iterations == if exited then ninst + 1 else fuel
    ensures ctr == if ninst == 0 then 0 else iterations
    ensures st == Iterate(p, bits, Start(p, cpu, mtime, mtimeh), iterations)
  {
    var start := Start(p, cpu, mtime, mtimeh);
    st := start;
    iterations, ctr, exited := 0, 0, false;
    while !exited && iterations < fuel
      invariant iterations <= fuel
      invariant st == Iterate(p, bits, start, iterations)
      invariant ctr == if ninst == 0 then 0 else iterations
      invariant 0 < ninst ==> iterations <= ninst + 1
      invariant exited <==> 0 < ninst && iterations == ninst + 1
      decreases fuel - iterations
    {
      st := Body(p, bits, st);
      iterations := iterations + 1;
      // `!ninst` short-circuits: with no bound, `ctr` is never incremented and the loop goes on
      if ninst != 0 {
        exited := !(ctr < ninst);
        ctr := ctr + 1;
      }
    }
  }
}
