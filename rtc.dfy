/**
 * The real-time counter driver of the main loop: a 12-bit wrapping cadence counter
 * (`rtc_period`) gates the increment of the 64-bit machine timer `mtime`, held by the
 * CPU as two 32-bit words `mtime` and `mtimeh` (section 3.2.1 of the RISC-V
 * Privileged Architecture).
 */
module Rtc {

  /** rtc_period is masked with 0xFFF, so it wraps after 4096 steps. */
  const PERIOD: nat := 0x1000
  const WORD: nat := 0x1_0000_0000
  const TIME_RANGE: nat := 0x1_0000_0000_0000_0000

  /** The 12-bit cadence counter and one 32-bit word of the timer. */
  type Period = x: int | 0 <= x < 0x1000
  type Word = x: int | 0 <= x < 0x1_0000_0000

  datatype Clock = Clock(period: Period, mtime: Word, mtimeh: Word)

  /** The 64-bit timer value made of the two words. */
  function Time(c: Clock): nat
  {
    c.mtimeh * 0x1_0000_0000 + c.mtime
  }

  /**
   * One RTC advance: `rtc_period = (rtc_period + 1) & 0xFFF`; when that gives 0,
   * `++mtime`, and when `mtime` wraps to 0, `mtimeh++` (both 32-bit words wrap).
   */
  function Advance(c: Clock): Clock
  {
    var p := (c.period + 1) % PERIOD;
    if p != 0 then
      c.(period := p)
    else
      var lo := (c.mtime + 1) % WORD;
      var hi := if lo == 0 then (c.mtimeh + 1) % WORD else c.mtimeh;
      Clock(p, lo, hi)
  }

  /**
   * An advance moves the cadence counter on by one modulo 4096 and, exactly when that
   * brings it to 0, increments the 64-bit timer modulo 2^64; `mtimeh` changes only when
   * `mtime` has just wrapped to 0.
   */
  lemma AdvanceStep(c: Clock)
    ensures Advance(c).period == (c.period + 1) % PERIOD
    ensures Advance(c).period != 0 ==> Time(Advance(c)) == Time(c)
    ensures Advance(c).period == 0 ==> Time(Advance(c)) == (Time(c) + 1) % TIME_RANGE
    ensures Advance(c).mtimeh != c.mtimeh ==> Advance(c).mtime == 0 && Advance(c).period == 0
  {
    if (c.period + 1) % PERIOD == 0 {
      CarryIsIncrement(c);
    }
  }

  /** The clock after `n` advances. */
  function AdvanceN(c: Clock, n: nat): Clock
  {
    if n == 0 then c else Advance(AdvanceN(c, n - 1))
  }

  /**
   * After `n` advances the cadence counter has moved on by `n` (mod 4096) and the timer
   * has been incremented once for every multiple of 4096 the counter passed, mod 2^64.
   */
  lemma {:induction false} Cadence(c: Clock, n: nat)
    ensures AdvanceN(c, n).period == (c.period + n) % PERIOD
    ensures Time(AdvanceN(c, n)) == (Time(c) + (c.period + n) / PERIOD) % TIME_RANGE
  {
    if n == 0 {
      assert c.period / PERIOD == 0;
    } else {
      Cadence(c, n - 1);
      CadenceStep(c, n - 1, AdvanceN(c, n - 1), AdvanceN(c, n));
    }
  }

  /** The induction step of `Cadence`: what held after `k` advances holds after `k + 1`. */
  lemma CadenceStep(c: Clock, k: nat, prev: Clock, next: Clock)
    requires next == Advance(prev)
    requires prev.period == (c.period + k) % PERIOD
    requires Time(prev) == (Time(c) + (c.period + k) / PERIOD) % TIME_RANGE
    ensures next.period == (c.period + k + 1) % PERIOD
    ensures Time(next) == (Time(c) + (c.period + k + 1) / PERIOD) % TIME_RANGE
  {
    AdvanceStep(prev);
    DivStep(c.period + k);
    TickCount(Time(c), c.period + k, Time(prev), Time(next));
  }

  /** One more advance: the counter reading `k + 1` has passed a multiple of 4096 exactly when it is one. */
  lemma TickCount(t0: nat, k: nat, before: nat, after: nat)
    requires before == (t0 + k / PERIOD) % TIME_RANGE
    requires (k + 1) % PERIOD == 0 ==> after == (before + 1) % TIME_RANGE
    requires (k + 1) % PERIOD != 0 ==> after == before
    ensures after == (t0 + (k + 1) / PERIOD) % TIME_RANGE
  {
  }

  /** Counting from 0, the timer stays put for 4095 advances and moves on the 4096th. */
  lemma FirstTick(c: Clock, n: nat)
    requires c.period == 0
    ensures 0 < n < PERIOD ==> Time(AdvanceN(c, n)) == Time(c)
    ensures n == PERIOD ==> Time(AdvanceN(c, n)) == (Time(c) + 1) % TIME_RANGE
  {
    Cadence(c, n);
  }

  /** The single-step carry from `mtime` into `mtimeh` is a 64-bit increment. */
  lemma CarryIsIncrement(c: Clock)
    ensures var lo := (c.mtime + 1) % WORD;
            var hi := if lo == 0 then (c.mtimeh + 1) % WORD else c.mtimeh;
            Time(Clock(0, lo, hi)) == (Time(c) + 1) % TIME_RANGE
  {
    WordCarry(c.mtime, c.mtimeh);
  }

  lemma WordCarry(lo: nat, hi: nat)
    requires lo < WORD && hi < WORD
    ensures var lo' := (lo + 1) % WORD;
            var hi' := if lo' == 0 then (hi + 1) % WORD else hi;
            hi' * WORD + lo' == (hi * WORD + lo + 1) % TIME_RANGE
  {
    if lo + 1 < WORD {
      SmallMod(lo + 1, WORD);
      SmallMod(hi * WORD + lo + 1, TIME_RANGE);
    } else if hi + 1 < WORD {
      assert hi * WORD + lo + 1 == (hi + 1) * WORD;
      SmallMod(hi * WORD + lo + 1, TIME_RANGE);
    } else {
      assert hi * WORD + lo + 1 == TIME_RANGE;
    }
  }

  lemma SmallMod(x: nat, m: nat)
    requires x < m
    ensures x % m == x
  {
  }

  lemma DivStep(k: nat)
    ensures (k + 1) % PERIOD == (k % PERIOD + 1) % PERIOD
    ensures (k + 1) % PERIOD == 0 ==> (k + 1) / PERIOD == k / PERIOD + 1
    ensures (k + 1) % PERIOD != 0 ==> (k + 1) / PERIOD == k / PERIOD
  {
  }
}
