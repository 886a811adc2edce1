/** The peripheral side of the demo, seen abstractly: the registers the
    program touches and the trace of accesses it performs on them.
    Physical addresses and `volatile` semantics are not modelled; a
    register is a name, a read returns whatever the environment supplies,
    and every read, write and tick report is appended to a trace. */
module Registers {

  /** A 32-bit word: a C `int` or `long` on Nios II, and the contents of
      every memory-mapped and control register. */
  type Word = bv32

  datatype Reg =
    | TimerStatus       // interval timer, word offset 0 (writing clears TO)
    | TimerControl      // interval timer, word offset 1
    | TimerPeriodLow    // interval timer, word offset 2
    | TimerPeriodHigh   // interval timer, word offset 3
    | KeyInterruptMask  // pushbutton port, word offset 2
    | KeyEdgeCapture    // pushbutton port, word offset 3 (write-back clears)
    | Switches          // slider switch data register
    | Status            // Nios II control register 0
    | Ienable           // Nios II control register 3
    | Ipending          // Nios II control register 4

  /** One observable action of the program. `Report(n)` is the line the
      timer ISR prints, reduced to the second count it carries. */
  datatype Event =
    | Read(reg: Reg, value: Word)
    | Write(reg: Reg, value: Word)
    | Report(seconds: nat)

  /** The values written to `reg`, in trace order. */
  function Writes(trace: seq<Event>, reg: Reg): seq<Word>
  {
    if trace == [] then []
    else (if trace[0].Write? && trace[0].reg == reg then [trace[0].value] else [])
         + Writes(trace[1..], reg)
  }

  /** The second counts reported, in trace order. */
  function Reports(trace: seq<Event>): seq<nat>
  {
    if trace == [] then []
    else (if trace[0].Report? then [trace[0].seconds] else []) + Reports(trace[1..])
  }

  lemma {:induction false} WritesAppend(a: seq<Event>, b: seq<Event>, reg: Reg)
    ensures Writes(a + b, reg) == Writes(a, reg) + Writes(b, reg)
  {
    if a == [] {
      assert a + b == b;
    } else {
      assert (a + b)[1..] == a[1..] + b;
      WritesAppend(a[1..], b, reg);
    }
  }

  lemma {:induction false} ReportsAppend(a: seq<Event>, b: seq<Event>)
    ensures Reports(a + b) == Reports(a) + Reports(b)
  {
    if a == [] {
      assert a + b == b;
    } else {
      assert (a + b)[0] == a[0] && (a + b)[1..] == a[1..] + b;
      ReportsAppend(a[1..], b);
      var h: seq<nat> := if a[0].Report? then [a[0].seconds] else [];
      assert Reports(a + b) == h + Reports(a[1..] + b);
      assert Reports(a) == h + Reports(a[1..]);
    }
  }
}
