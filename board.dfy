/** The program as it runs: its globals are fields updated in place, and
    every register access and tick report is appended to `bus`. Each
    method is proved against the corresponding function in `Handlers`
    (or `Startup`), about which the properties are proved. */
module Board {
  import opened Registers
  import Handlers
  import Startup
  import Lifetime

  class Machine {
    var pattern: Word
    var shiftDir: Word
    var shiftEnable: Word
    var timeElapsed: nat
    /** Everything the program has done on the bus, in order. */
    var bus: seq<Event>

    function Globals(): Handlers.Globals
      reads this
    {
      Handlers.Globals(pattern, shiftDir, shiftEnable, timeElapsed)
    }

    /** Static initialisation of the globals; `shift_dir` and
        `shift_enable` start from compiler-chosen constants. */
    constructor (shiftDir0: Word, shiftEnable0: Word)
      ensures pattern == 0x0000000F && timeElapsed == 0
      ensures shiftDir == shiftDir0 && shiftEnable == shiftEnable0
      ensures Globals() == Handlers.Initial(shiftDir0, shiftEnable0)
      ensures bus == []
    {
      pattern := Handlers.InitialPattern;
      shiftDir := shiftDir0;
      shiftEnable := shiftEnable0;
      timeElapsed := 0;
      bus := [];
    }

    /** `main` up to its idle loop: program the period in two halves,
        start the timer, enable the key interrupts, set IENABLE and turn
        interrupts on. No global changes. */
    method Start()
      modifies this
      ensures Globals() == old(Globals())
      ensures bus == old(bus) + Startup.StartTrace()
    {
      var counter: Word := Startup.PeriodCycles;
      bus := bus + [Write(TimerPeriodLow, counter & 0xFFFF)];
      bus := bus + [Write(TimerPeriodHigh, (counter >> 16) & 0xFFFF)];
      bus := bus + [Write(TimerControl, 0x7)];
      bus := bus + [Write(KeyInterruptMask, 0x3)];
      bus := bus + [Write(Ienable, 0x3)];
      bus := bus + [Write(Status, 1)];
    }

    /** `interval_timer_ISR`: acknowledge first, then count and report. */
    method IntervalTimerIsr()
      modifies this
      ensures Globals() == Handlers.IntervalTimerIsr(old(Globals())).globals
      ensures bus == old(bus) + Handlers.IntervalTimerIsr(old(Globals())).trace
      ensures timeElapsed == old(timeElapsed) + 1
      ensures bus[|old(bus)|] == Write(TimerStatus, 0) && bus[|bus| - 1] == Report(timeElapsed)
    {
      bus := bus + [Write(TimerStatus, 0)];
      timeElapsed := timeElapsed + 1;
      bus := bus + [Report(timeElapsed)];
    }

    /** `pushbutton_ISR`, given the values the edge-capture and switch
        registers return. */
    method PushbuttonIsr(press: Word, switches: Word)
      modifies this
      ensures Globals() == Handlers.PushbuttonIsr(old(Globals()), press, switches).globals
      ensures bus == old(bus) + Handlers.PushbuttonIsr(old(Globals()), press, switches).trace
      ensures pattern == if (press & 0x1) != 0 then switches else old(pattern)
      ensures shiftDir == if (press & 0x2) != 0 then Handlers.ToggleLowBit(old(shiftDir)) else old(shiftDir)
      ensures timeElapsed == old(timeElapsed)
    {
      var edge := press;
      bus := bus + [Read(KeyEdgeCapture, edge)];
      bus := bus + [Write(KeyEdgeCapture, edge)];
      if (edge & 0x1) != 0 {
        bus := bus + [Read(Switches, switches)];
        pattern := switches;
      }
      if (edge & 0x2) != 0 {
        shiftDir := Handlers.ToggleLowBit(shiftDir);
      }
    }

    /** `interrupt_handler`, given the value of `ipending` and what the
        pushbutton ISR would read. */
    method InterruptHandler(ipending: Word, press: Word, switches: Word)
      modifies this
      ensures Globals() == Handlers.InterruptHandler(old(Globals()), Handlers.Trap(ipending, press, switches)).globals
      ensures bus == old(bus) + Handlers.InterruptHandler(old(Globals()), Handlers.Trap(ipending, press, switches)).trace
    {
      ghost var g0, t := Globals(), Handlers.Trap(ipending, press, switches);
      Handlers.DispatchTraceParts(g0, t);
      bus := bus + [Read(Ipending, ipending)];
      if (ipending & 0x1) != 0 {
        IntervalTimerIsr();
      }
      ghost var g1 := Globals();
      assert g1 == if (ipending & 0x1) != 0 then Handlers.IntervalTimerIsr(g0).globals else g0;
      if (ipending & 0x2) != 0 {
        PushbuttonIsr(press, switches);
      }
    }
  }

  /** A short session: start-up, then a timer tick together with KEY0
      loading 0xA5 from the switches, then a KEY1 press. */
  method Session(shiftDir0: Word, shiftEnable0: Word) returns (m: Machine)
    ensures m.pattern == 0xA5 && m.timeElapsed == 1
    ensures m.shiftDir == Handlers.ToggleLowBit(shiftDir0) && m.shiftEnable == shiftEnable0
    ensures Reports(m.bus) == [1]
  {
    var g0 := Handlers.Initial(shiftDir0, shiftEnable0);
    var t1, t2 := Handlers.Trap(0x3, 0x1, 0xA5), Handlers.Trap(0x2, 0x2, 0);
    m := new Machine(shiftDir0, shiftEnable0);
    m.Start();
    var s1 := Handlers.InterruptHandler(g0, t1);
    m.InterruptHandler(t1.ipending, t1.press, t1.switches);
    var s2 := Handlers.InterruptHandler(s1.globals, t2);
    m.InterruptHandler(t2.ipending, t2.press, t2.switches);
    assert m.bus == Startup.StartTrace() + (s1.trace + s2.trace);
    Startup.StartReportsNothing();
    ReportsAppend(Startup.StartTrace(), s1.trace + s2.trace);
    Lifetime.ScenarioTickKey0ThenKey1(g0);
  }
}
