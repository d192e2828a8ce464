/**
 * The I/O callbacks of the two UARTs. UART0 is bridged to the terminal: output is
 * echoed (except carriage returns) and input is read without blocking, but only on one
 * call in 4096. UART1 has no backend.
 */
module Uart {
  import opened Rv

  /** `thrott` is masked with 0xFFF, so the terminal is polled once every 4096 reads. */
  const THROTTLE: nat := 0x1000
  /** What the terminal's non-blocking read returns when no key is waiting. */
  const ERR: int := -1
  const CR: byte := 0x0D

  /** The terminal: keys typed and not yet read (oldest first), and the characters shown. */
  datatype TermState = TermState(pending: seq<nat>, shown: seq<byte>)

  /** `getch` in non-blocking mode: the oldest waiting key, or ERR when there is none. */
  function Getch(t: TermState): (int, TermState)
  {
    if t.pending == [] then (ERR, t) else (t.pending[0], t.(pending := t.pending[1..]))
  }

  /** `echochar`: one more character on the screen. */
  function Echo(t: TermState, b: byte): TermState
  {
    t.(shown := t.shown + [b])
  }

  /** `(rv_u8)ch`: the low 8 bits of a key code; a code that fits in a byte is kept as it is. */
  function LowByte(ch: nat): (b: byte)
    ensures (ch - b) % 0x100 == 0
    ensures ch < 0x100 ==> b == ch
  {
    ch % 0x100
  }

  /** The state `uart0_io` works on: its static `thrott` counter and the terminal. */
  datatype BridgeState = BridgeState(thrott: nat, term: TermState)

  /** What one call of a UART I/O callback leaves behind: the state, RV_OK/RV_BAD and `*byte`. */
  datatype IoResult = IoResult(state: BridgeState, res: Res, byte: byte)

  /**
   * `uart0_io`. A write echoes the byte unless it is '\r' and always succeeds. A read
   * advances `thrott` by one modulo 4096 and asks the terminal only when that gives 0;
   * it succeeds, with the low byte of the key, only if a key was waiting.
   */
  function Uart0Io(s: BridgeState, b: byte, write: bool): (r: IoResult)
    requires s.thrott < THROTTLE
    ensures r.state.thrott < THROTTLE
    ensures write ==> && r.res == Ok && r.byte == b
                      && r.state.thrott == s.thrott
                      && r.state.term.pending == s.term.pending
                      && r.state.term.shown == s.term.shown + (if b == CR then [] else [b])
    ensures !write ==> r.state.thrott == (s.thrott + 1) % THROTTLE && r.state.term.shown == s.term.shown
    ensures !write && r.state.thrott != 0 ==> r.res == Bad && r.byte == b && r.state.term == s.term
    ensures !write && r.state.thrott == 0 && s.term.pending == [] ==>
              r.res == Bad && r.byte == b && r.state.term == s.term
    ensures !write && r.state.thrott == 0 && s.term.pending != [] ==>
              && r.res == Ok && r.byte == LowByte(s.term.pending[0])
              && r.state.term.pending == s.term.pending[1..]
    ensures !write && r.res == Ok ==> r.state.thrott == 0
  {
    if write && b != CR then
      IoResult(s.(term := Echo(s.term, b)), Ok, b)
    else if !write then
      var thrott := (s.thrott + 1) % THROTTLE;
      if thrott != 0 then
        IoResult(s.(thrott := thrott), Bad, b)
      else
        var (ch, term) := Getch(s.term);
        if ch == ERR then IoResult(BridgeState(thrott, term), Bad, b)
        else IoResult(BridgeState(thrott, term), Ok, LowByte(ch))
    else
      IoResult(s, Ok, b)
  }

  /** `uart1_io`: every read and every write fails, and `*byte` is left as it was. */
  function Uart1Io(b: byte, write: bool): (r: (Res, byte))
    ensures r.0 == Bad && r.1 == b
  {
    (Bad, b)
  }

  /** `n` read calls of `uart0_io` in a row: the state afterwards and each call's result. */
  function Reads(s: BridgeState, n: nat): (r: (BridgeState, seq<Res>))
    requires s.thrott < THROTTLE
    ensures r.0.thrott < THROTTLE && |r.1| == n
  {
    if n == 0 then (s, [])
    else
      var (s', results) := Reads(s, n - 1);
      var io := Uart0Io(s', 0, false);
      (io.state, results + [io.res])
  }

  /** Reads that do not bring the counter round to 0 all fail and leave the terminal alone. */
  lemma {:induction false} ThrottledReads(s: BridgeState, n: nat)
    requires s.thrott + n < THROTTLE
    ensures Reads(s, n).0 == s.(thrott := s.thrott + n)
    ensures forall i :: 0 <= i < n ==> Reads(s, n).1[i] == Bad
  {
    if n > 0 {
      ThrottledReads(s, n - 1);
    }
  }

  /**
   * From a fresh counter, the first 4095 reads fail without polling the terminal and the
   * 4096th polls it once: it takes the oldest waiting key, if any, and the counter is 0 again.
   */
  lemma {:induction false} PollEvery4096(s: BridgeState)
    requires s.thrott == 0
    ensures var (s', results) := Reads(s, THROTTLE);
            && s'.thrott == 0
            && (forall i :: 0 <= i < THROTTLE - 1 ==> results[i] == Bad)
            && (s.term.pending == [] ==> results[THROTTLE - 1] == Bad && s'.term == s.term)
            && (s.term.pending != [] ==>
                  results[THROTTLE - 1] == Ok && s'.term == s.term.(pending := s.term.pending[1..]))
  {
    ThrottledReads(s, THROTTLE - 1);
    var (s', results) := Reads(s, THROTTLE);
    assert results[..THROTTLE - 1] == Reads(s, THROTTLE - 1).1;
  }

  /** With no key waiting, every read fails and the terminal is left as it was. */
  lemma {:induction false} NoInputNoData(s: BridgeState, n: nat)
    requires s.thrott < THROTTLE && s.term.pending == []
    ensures Reads(s, n).0 == s.(thrott := (s.thrott + n) % THROTTLE)
    ensures forall i :: 0 <= i < n ==> Reads(s, n).1[i] == Bad
  {
    if n > 0 {
      NoInputNoData(s, n - 1);
      CounterStep(s.thrott + n - 1);
    }
  }

  lemma CounterStep(k: nat)
    ensures (k + 1) % THROTTLE == (k % THROTTLE + 1) % THROTTLE
  {
  }

  /** The bytes shown for a run of writes: the written bytes with every '\r' left out. */
  function StripCR(bytes: seq<byte>): (r: seq<byte>)
    ensures CR !in r
    ensures forall b :: b in r <==> b in bytes && b != CR
    ensures |r| <= |bytes|
  {
    if bytes == [] then []
    else
      var last := bytes[|bytes| - 1];
      assert bytes == bytes[..|bytes| - 1] + [last];
      StripCR(bytes[..|bytes| - 1]) + (if last == CR then [] else [last])
  }

  /** Write calls of `uart0_io`, one per byte, in order. */
  function Writes(s: BridgeState, bytes: seq<byte>): (r: BridgeState)
    requires s.thrott < THROTTLE
    ensures r.thrott < THROTTLE
  {
    if bytes == [] then s
    else Uart0Io(Writes(s, bytes[..|bytes| - 1]), bytes[|bytes| - 1], true).state
  }

  /**
   * A run of writes shows exactly the bytes written minus the carriage returns, leaves the
   * read throttle and the waiting keys alone, and so never shows 0x0D.
   */
  lemma {:induction false} WritesEchoAllButCR(s: BridgeState, bytes: seq<byte>)
    requires s.thrott < THROTTLE
    ensures Writes(s, bytes).term.shown == s.term.shown + StripCR(bytes)
    ensures Writes(s, bytes).thrott == s.thrott
    ensures Writes(s, bytes).term.pending == s.term.pending
  {
    if bytes != [] {
      WritesEchoAllButCR(s, bytes[..|bytes| - 1]);
    }
  }

  /** The terminal, with the non-blocking `getch` and `echochar` of the curses library. */
  class Terminal {
    var pending: seq<nat>
    var shown: seq<byte>

    function State(): TermState
      reads this
    {
      TermState(pending, shown)
    }

    constructor (input: seq<nat>)
      ensures State() == TermState(input, [])
    {
      pending, shown := input, [];
    }

    method ReadKey() returns (ch: int)
      modifies this
      ensures (ch, State()) == Getch(old(State()))
    {
      if pending == [] {
        return ERR;
      }
      ch := pending[0];
      pending := pending[1..];
    }

    method EchoChar(b: byte)
      modifies this
      ensures State() == Echo(old(State()), b)
    {
      shown := shown + [b];
    }
  }

  /** UART0's I/O callback with its static `thrott` counter and the terminal it talks to. */
  class Uart0Bridge {
    var thrott: nat
    const term: Terminal

    ghost predicate Valid()
      reads this
    {
      thrott < THROTTLE
    }

    function State(): BridgeState
      reads this, term
    {
      BridgeState(thrott, term.State())
    }

    constructor (term: Terminal)
      ensures Valid() && thrott == 0 && this.term == term
    {
      thrott := 0;
      this.term := term;
    }

    /** `uart0_io`: `b` is `*byte` on entry, `out` is `*byte` on return. */
    method Io(b: byte, write: bool) returns (res: Res, out: byte)
      requires Valid()
      modifies this, term
      ensures Valid()
      ensures IoResult(State(), res, out) == Uart0Io(old(State()), b, write)
    {
      out := b;
      if write && b != CR {
        term.EchoChar(b);
      } else if !write {
        thrott := (thrott + 1) % THROTTLE;
        if thrott != 0 {
          return Bad, b;
        }
        var ch := term.ReadKey();
        if ch == ERR {
          return Bad, b;
        }
        out := LowByte(ch);
      }
      res := Ok;
    }
  }
}
