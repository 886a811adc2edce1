/** The interrupt dispatcher and the two interrupt service routines as
    functions from the program's global state to the new state and the
    trace of register accesses (and tick reports) performed. */
module Handlers {
  import opened Registers

  /** The program's globals `pattern`, `shift_dir`, `shift_enable` and
      `timeElapsed`. */
  datatype Globals = Globals(pattern: Word, shiftDir: Word, shiftEnable: Word, timeElapsed: nat)

  /** The outcome of running a routine: the new globals and what it did,
      in order. */
  datatype Step = Step(globals: Globals, trace: seq<Event>)

  /** What one trap entry observes: the pending-interrupt mask, and the
      values the key edge-capture and switch registers return if read. */
  datatype Trap = Trap(ipending: Word, press: Word, switches: Word)

  const InitialPattern: Word := 0x0000000F

  /** The globals at program start. The initial `shift_dir` and
      `shift_enable` are multi-character constants whose value the C
      compiler chooses, so they are parameters here. */
  function Initial(shiftDir0: Word, shiftEnable0: Word): (g: Globals)
    ensures g.pattern == 0x0000000F && (g.pattern & 0xF) == 0xF && (g.pattern >> 4) == 0
    ensures g.timeElapsed == 0
    ensures g.shiftDir == shiftDir0 && g.shiftEnable == shiftEnable0
  {
    Globals(InitialPattern, shiftDir0, shiftEnable0, 0)
  }

  /** `shift_dir ^ 1`: flips bit 0 and keeps the other 31 bits. */
  function ToggleLowBit(d: Word): (r: Word)
    ensures (r & 1) != (d & 1)
    ensures (r >> 1) == (d >> 1)
  {
    d ^ 1
  }

  lemma ToggleLowBitTwice(d: Word)
    ensures ToggleLowBit(ToggleLowBit(d)) == d
    ensures ToggleLowBit(d) != d
  {
  }

  /** `Then(a, b)`: `b` ran in the state `a` left; traces concatenate. */
  function Then(a: Step, b: Step): Step
  {
    Step(b.globals, a.trace + b.trace)
  }

  /** `interval_timer_ISR`, live code only: clear the timer's TO flag by
      writing 0 to its status register, then increment `timeElapsed` and
      report the new value. */
  function IntervalTimerIsr(g: Globals): (r: Step)
    ensures |r.trace| == 2 && r.trace[0] == Write(TimerStatus, 0)
    ensures r.globals.timeElapsed == g.timeElapsed + 1
    ensures r.trace[1] == Report(r.globals.timeElapsed)
    ensures r.globals.pattern == g.pattern && r.globals.shiftDir == g.shiftDir
    ensures r.globals.shiftEnable == g.shiftEnable
  {
    var g' := g.(timeElapsed := g.timeElapsed + 1);
    Step(g', [Write(TimerStatus, 0), Report(g'.timeElapsed)])
  }

  /** `pushbutton_ISR`: read the edge-capture register, write the same
      value back to clear it, then KEY0 loads `pattern` from the switches
      (reading them) and KEY1 toggles the low bit of `shift_dir`. */
  function PushbuttonIsr(g: Globals, press: Word, switches: Word): (r: Step)
    ensures |r.trace| >= 2
    ensures r.trace[0] == Read(KeyEdgeCapture, press)
    ensures r.trace[1] == Write(KeyEdgeCapture, press)
    ensures r.globals.pattern == if (press & 0x1) != 0 then switches else g.pattern
    ensures r.globals.shiftDir == if (press & 0x2) != 0 then ToggleLowBit(g.shiftDir) else g.shiftDir
    ensures r.globals.timeElapsed == g.timeElapsed && r.globals.shiftEnable == g.shiftEnable
    ensures Read(Switches, switches) in r.trace <==> (press & 0x1) != 0
  {
    var ack := [Read(KeyEdgeCapture, press), Write(KeyEdgeCapture, press)];
    var s0 := Step(g, ack);
    var s1 := if (press & 0x1) != 0
              then Step(s0.globals.(pattern := switches), s0.trace + [Read(Switches, switches)])
              else s0;
    var s2 := if (press & 0x2) != 0
              then Step(s1.globals.(shiftDir := ToggleLowBit(s1.globals.shiftDir)), s1.trace)
              else s1;
    s2
  }

  /** `interrupt_handler`: read `ipending`, run the timer ISR if bit 0 is
      set, then the pushbutton ISR if bit 1 is set; other bits are
      ignored. */
  function InterruptHandler(g: Globals, t: Trap): (r: Step)
    ensures |r.trace| >= 1 && r.trace[0] == Read(Ipending, t.ipending)
    ensures r.globals.timeElapsed == g.timeElapsed + (if (t.ipending & 0x1) != 0 then 1 else 0)
    ensures r.globals.shiftEnable == g.shiftEnable
  {
    var s0 := Step(g, [Read(Ipending, t.ipending)]);
    var s1 := if (t.ipending & 0x1) != 0 then Then(s0, IntervalTimerIsr(s0.globals)) else s0;
    var s2 := if (t.ipending & 0x2) != 0 then Then(s1, PushbuttonIsr(s1.globals, t.press, t.switches)) else s1;
    s2
  }

  lemma TimerIsrWrites(g: Globals, reg: Reg)
    ensures Writes(IntervalTimerIsr(g).trace, reg) == if reg == TimerStatus then [0] else []
  {
    var tr := IntervalTimerIsr(g).trace;
    assert tr[1..][1..] == [];
    assert Writes(tr[1..], reg) == [];
  }

  lemma PushbuttonIsrWrites(g: Globals, press: Word, switches: Word, reg: Reg)
    ensures Writes(PushbuttonIsr(g, press, switches).trace, reg) == if reg == KeyEdgeCapture then [press] else []
  {
    var tr := PushbuttonIsr(g, press, switches).trace;
    var ack := [Read(KeyEdgeCapture, press), Write(KeyEdgeCapture, press)];
    var tail := if (press & 0x1) != 0 then [Read(Switches, switches)] else [];
    assert tr == ack + tail;
    WritesAppend(ack, tail, reg);
    assert ack[1..][1..] == [];
    if tail != [] {
      assert tail[1..] == [];
    }
  }

  /** Two KEY1 presses restore `shift_dir`, whatever else they capture. */
  lemma PushbuttonKey1TwiceRestoresDirection(g: Globals, press1: Word, switches1: Word, press2: Word, switches2: Word)
    requires (press1 & 0x2) != 0 && (press2 & 0x2) != 0
    ensures PushbuttonIsr(PushbuttonIsr(g, press1, switches1).globals, press2, switches2).globals.shiftDir == g.shiftDir
  {
    ToggleLowBitTwice(g.shiftDir);
  }

  /** The timer ISR runs, and acknowledges the timer exactly once, exactly
      when bit 0 of `ipending` is set. */
  lemma {:induction false} DispatchTimerIffBit0(g: Globals, t: Trap)
    ensures Writes(InterruptHandler(g, t).trace, TimerStatus) == if (t.ipending & 0x1) != 0 then [0] else []
    ensures InterruptHandler(g, t).globals.timeElapsed == g.timeElapsed + (if (t.ipending & 0x1) != 0 then 1 else 0)
    ensures Reports(InterruptHandler(g, t).trace) == if (t.ipending & 0x1) != 0 then [g.timeElapsed + 1] else []
  {
    DispatchWrites(g, t, TimerStatus);
    DispatchReports(g, t);
  }

  /** The pushbutton ISR runs, and clears the edge capture exactly once,
      exactly when bit 1 of `ipending` is set; only then can `pattern` or
      `shift_dir` change. */
  lemma {:induction false} DispatchPushbuttonIffBit1(g: Globals, t: Trap)
    ensures Writes(InterruptHandler(g, t).trace, KeyEdgeCapture) == if (t.ipending & 0x2) != 0 then [t.press] else []
    ensures (t.ipending & 0x2) != 0 ==> InterruptHandler(g, t).globals.pattern == (if (t.press & 0x1) != 0 then t.switches else g.pattern)
    ensures (t.ipending & 0x2) != 0 ==> InterruptHandler(g, t).globals.shiftDir == (if (t.press & 0x2) != 0 then ToggleLowBit(g.shiftDir) else g.shiftDir)
    ensures (t.ipending & 0x2) == 0 ==> InterruptHandler(g, t).globals.pattern == g.pattern && InterruptHandler(g, t).globals.shiftDir == g.shiftDir
    ensures InterruptHandler(g, t).globals.shiftEnable == g.shiftEnable
  {
    DispatchWrites(g, t, KeyEdgeCapture);
  }

  /** `shift_dir` after one dispatch: toggled exactly when level 1 is
      pending and KEY1 was captured. */
  lemma DispatchDirection(g: Globals, t: Trap)
    ensures InterruptHandler(g, t).globals.shiftDir ==
      if (t.ipending & 0x2) != 0 && (t.press & 0x2) != 0 then ToggleLowBit(g.shiftDir) else g.shiftDir
  {
  }

  /** With both levels pending, both ISRs run once each, timer first. */
  lemma DispatchBothTimerFirst(g: Globals, t: Trap)
    requires (t.ipending & 0x3) == 0x3
    ensures InterruptHandler(g, t) ==
      Then(Then(Step(g, [Read(Ipending, t.ipending)]), IntervalTimerIsr(g)),
           PushbuttonIsr(IntervalTimerIsr(g).globals, t.press, t.switches))
  {
  }

  /** A mask with neither bit 0 nor bit 1 set changes nothing and writes
      nothing: the only action is reading `ipending`. */
  lemma DispatchIgnoresUnknownLevels(g: Globals, t: Trap)
    requires (t.ipending & 0x3) == 0
    ensures InterruptHandler(g, t) == Step(g, [Read(Ipending, t.ipending)])
  {
  }

  /** Bits 2 to 31 of `ipending` have no influence beyond the logged read. */
  lemma DispatchIgnoresHigherBits(g: Globals, t: Trap)
    ensures InterruptHandler(g, t).globals == InterruptHandler(g, t.(ipending := t.ipending & 0x3)).globals
    ensures InterruptHandler(g, t).trace[1..] == InterruptHandler(g, t.(ipending := t.ipending & 0x3)).trace[1..]
  {
    var t' := t.(ipending := t.ipending & 0x3);
    assert ((t'.ipending & 0x1) != 0) == ((t.ipending & 0x1) != 0);
    assert ((t'.ipending & 0x2) != 0) == ((t.ipending & 0x2) != 0);
    DispatchTraceParts(g, t);
    DispatchTraceParts(g, t');
  }

  /** The two ISRs touch disjoint globals, so their effect on the state
      does not depend on the order they run in. */
  lemma IsrsCommuteOnState(g: Globals, press: Word, switches: Word)
    ensures PushbuttonIsr(IntervalTimerIsr(g).globals, press, switches).globals
         == IntervalTimerIsr(PushbuttonIsr(g, press, switches).globals).globals
  {
  }

  /** One dispatch is the `ipending` read, then the timer ISR's trace if
      level 0 is pending, then the pushbutton ISR's if level 1 is. */
  lemma DispatchTraceParts(g: Globals, t: Trap)
    ensures var g1 := if (t.ipending & 0x1) != 0 then IntervalTimerIsr(g).globals else g;
      InterruptHandler(g, t).trace ==
        [Read(Ipending, t.ipending)]
        + (if (t.ipending & 0x1) != 0 then IntervalTimerIsr(g).trace else [])
        + (if (t.ipending & 0x2) != 0 then PushbuttonIsr(g1, t.press, t.switches).trace else [])
  {
  }

  /** The writes of one dispatch, register by register. */
  lemma DispatchWrites(g: Globals, t: Trap, reg: Reg)
    ensures Writes(InterruptHandler(g, t).trace, reg) ==
      (if (t.ipending & 0x1) != 0 && reg == TimerStatus then [0] else []) +
      (if (t.ipending & 0x2) != 0 && reg == KeyEdgeCapture then [t.press] else [])
  {
    var rd := [Read(Ipending, t.ipending)];
    var g1 := if (t.ipending & 0x1) != 0 then IntervalTimerIsr(g).globals else g;
    var tm := if (t.ipending & 0x1) != 0 then IntervalTimerIsr(g).trace else [];
    var pb := if (t.ipending & 0x2) != 0 then PushbuttonIsr(g1, t.press, t.switches).trace else [];
    DispatchTraceParts(g, t);
    WritesAppend(rd + tm, pb, reg);
    WritesAppend(rd, tm, reg);
    assert Writes(rd, reg) == [] by { assert rd[1..] == []; }
    if (t.ipending & 0x1) != 0 {
      TimerIsrWrites(g, reg);
    }
    if (t.ipending & 0x2) != 0 {
      PushbuttonIsrWrites(g1, t.press, t.switches, reg);
    }
  }

  /** The tick reports of one dispatch. */
  lemma DispatchReports(g: Globals, t: Trap)
    ensures Reports(InterruptHandler(g, t).trace) == if (t.ipending & 0x1) != 0 then [g.timeElapsed + 1] else []
  {
    var rd := [Read(Ipending, t.ipending)];
    var g1 := if (t.ipending & 0x1) != 0 then IntervalTimerIsr(g).globals else g;
    var tm := if (t.ipending & 0x1) != 0 then IntervalTimerIsr(g).trace else [];
    var pb := if (t.ipending & 0x2) != 0 then PushbuttonIsr(g1, t.press, t.switches).trace else [];
    DispatchTraceParts(g, t);
    ReportsAppend(rd + tm, pb);
    ReportsAppend(rd, tm);
    assert Reports(rd) == [] by { assert rd[1..] == []; }
    if (t.ipending & 0x1) != 0 {
      TimerIsrReports(g);
    }
    if (t.ipending & 0x2) != 0 {
      PushbuttonIsrReportsNothing(g1, t.press, t.switches);
    }
  }

  lemma TimerIsrReports(g: Globals)
    ensures Reports(IntervalTimerIsr(g).trace) == [g.timeElapsed + 1]
  {
    var tr := IntervalTimerIsr(g).trace;
    assert tr[1..][1..] == [];
    assert Reports(tr[1..]) == [g.timeElapsed + 1];
  }

  lemma PushbuttonIsrReportsNothing(g: Globals, press: Word, switches: Word)
    ensures Reports(PushbuttonIsr(g, press, switches).trace) == []
  {
    var tr := PushbuttonIsr(g, press, switches).trace;
    var ack := [Read(KeyEdgeCapture, press), Write(KeyEdgeCapture, press)];
    var tail := if (press & 0x1) != 0 then [Read(Switches, switches)] else [];
    assert tr == ack + tail;
    ReportsAppend(ack, tail);
    assert ack[1..][1..] == [];
    if tail != [] {
      assert tail[1..] == [];
    }
  }
}
