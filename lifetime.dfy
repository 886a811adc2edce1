/** The program's life after `main` has set up the peripherals: the
    processor idles, and each hardware trap saves the registers, calls
    `interrupt_handler` once and returns. A run is therefore a sequence of
    trap entries, each one dispatch applied to the globals the previous
    one left. */
module Lifetime {
  import opened Registers
  import opened Handlers

  function Run(g: Globals, traps: seq<Trap>): Step
    decreases |traps|
  {
    if traps == [] then Step(g, [])
    else
      var s := InterruptHandler(g, traps[0]);
      Then(s, Run(s.globals, traps[1..]))
  }

  /** Trap entries with the timer level pending. */
  function TimerTraps(traps: seq<Trap>): nat
  {
    if traps == [] then 0
    else (if (traps[0].ipending & 0x1) != 0 then 1 else 0) + TimerTraps(traps[1..])
  }

  /** Trap entries that service the pushbuttons with KEY1 captured. */
  function DirectionToggles(traps: seq<Trap>): nat
  {
    if traps == [] then 0
    else (if (traps[0].ipending & 0x2) != 0 && (traps[0].press & 0x2) != 0 then 1 else 0)
         + DirectionToggles(traps[1..])
  }

  /** The switch values loaded into `pattern`, in order: one per trap
      entry that services the pushbuttons with KEY0 captured. */
  function SwitchLoads(traps: seq<Trap>): seq<Word>
  {
    if traps == [] then []
    else (if (traps[0].ipending & 0x2) != 0 && (traps[0].press & 0x1) != 0 then [traps[0].switches] else [])
         + SwitchLoads(traps[1..])
  }

  /** `n` consecutive second counts starting at `from`. */
  function Consecutive(from: nat, n: nat): seq<nat>
    decreases n
  {
    if n == 0 then [] else [from] + Consecutive(from + 1, n - 1)
  }

  lemma {:induction false} ConsecutiveSplit(from: nat, n: nat, m: nat)
    ensures Consecutive(from, n) + Consecutive(from + n, m) == Consecutive(from, n + m)
    decreases n
  {
    if n > 0 {
      ConsecutiveSplit(from + 1, n - 1, m);
      assert [from] + (Consecutive(from + 1, n - 1) + Consecutive(from + 1 + (n - 1), m))
          == ([from] + Consecutive(from + 1, n - 1)) + Consecutive(from + n, m);
    }
  }

  /** `timeElapsed` advances by exactly the number of timer interrupts, and
      the reports printed are the consecutive counts that follow its
      starting value: no tick is skipped or counted twice. */
  lemma {:induction false} RunCountsEveryTick(g: Globals, traps: seq<Trap>)
    ensures Run(g, traps).globals.timeElapsed == g.timeElapsed + TimerTraps(traps)
    ensures Reports(Run(g, traps).trace) == Consecutive(g.timeElapsed + 1, TimerTraps(traps))
    decreases |traps|
  {
    if traps != [] {
      var s := InterruptHandler(g, traps[0]);
      var k := if (traps[0].ipending & 0x1) != 0 then 1 else 0;
      DispatchTimerIffBit0(g, traps[0]);
      RunCountsEveryTick(s.globals, traps[1..]);
      ReportsAppend(s.trace, Run(s.globals, traps[1..]).trace);
      ConsecutiveSplit(g.timeElapsed + 1, k, TimerTraps(traps[1..]));
      if k == 1 {
        assert Consecutive(g.timeElapsed + 1, 1) == [g.timeElapsed + 1];
      }
    }
  }

  /** Every timer interrupt of a run is acknowledged, once, with a 0 write. */
  lemma {:induction false} RunAcknowledgesEveryTick(g: Globals, traps: seq<Trap>)
    ensures |Writes(Run(g, traps).trace, TimerStatus)| == TimerTraps(traps)
    ensures forall i :: 0 <= i < |Writes(Run(g, traps).trace, TimerStatus)| ==> Writes(Run(g, traps).trace, TimerStatus)[i] == 0
    decreases |traps|
  {
    if traps != [] {
      var s := InterruptHandler(g, traps[0]);
      DispatchTimerIffBit0(g, traps[0]);
      RunAcknowledgesEveryTick(s.globals, traps[1..]);
      WritesAppend(s.trace, Run(s.globals, traps[1..]).trace, TimerStatus);
    }
  }

  /** `shift_dir` ends where it started after an even number of KEY1
      presses and toggled after an odd number. */
  lemma {:induction false} RunDirectionParity(g: Globals, traps: seq<Trap>)
    ensures Run(g, traps).globals.shiftDir ==
      if DirectionToggles(traps) % 2 == 0 then g.shiftDir else ToggleLowBit(g.shiftDir)
    decreases |traps|
  {
    if traps != [] {
      var s := InterruptHandler(g, traps[0]);
      DispatchDirection(g, traps[0]);
      RunDirectionParity(s.globals, traps[1..]);
      ToggleLowBitTwice(g.shiftDir);
      var rest := DirectionToggles(traps[1..]);
      if (traps[0].ipending & 0x2) != 0 && (traps[0].press & 0x2) != 0 {
        assert s.globals.shiftDir == ToggleLowBit(g.shiftDir);
        assert DirectionToggles(traps) == rest + 1;
      } else {
        assert s.globals.shiftDir == g.shiftDir;
        assert DirectionToggles(traps) == rest;
      }
    }
  }

  /** After a run `pattern` holds the switch value of the last KEY0
      press, or its old value when there was none. */
  lemma {:induction false} RunPatternIsLastSwitchLoad(g: Globals, traps: seq<Trap>)
    ensures Run(g, traps).globals.pattern ==
      if SwitchLoads(traps) == [] then g.pattern else SwitchLoads(traps)[|SwitchLoads(traps)| - 1]
    decreases |traps|
  {
    if traps != [] {
      var s := InterruptHandler(g, traps[0]);
      DispatchPushbuttonIffBit1(g, traps[0]);
      RunPatternIsLastSwitchLoad(s.globals, traps[1..]);
    }
  }

  /** Nothing live ever changes `shift_enable`. */
  lemma {:induction false} RunKeepsShiftEnable(g: Globals, traps: seq<Trap>)
    ensures Run(g, traps).globals.shiftEnable == g.shiftEnable
    decreases |traps|
  {
    if traps != [] {
      var s := InterruptHandler(g, traps[0]);
      DispatchPushbuttonIffBit1(g, traps[0]);
      RunKeepsShiftEnable(s.globals, traps[1..]);
    }
  }

  /** From any state: a timer tick together with KEY0 (switches 0xA5),
      then KEY1 alone. The tick is counted and reported, the switch value
      replaces the pattern, and the direction is toggled. */
  lemma ScenarioTickKey0ThenKey1(g: Globals)
    ensures var s1 := InterruptHandler(g, Trap(0x3, 0x1, 0xA5));
      var s2 := InterruptHandler(s1.globals, Trap(0x2, 0x2, 0));
      && s2.globals == g.(pattern := 0xA5, shiftDir := ToggleLowBit(g.shiftDir), timeElapsed := g.timeElapsed + 1)
      && Reports(s1.trace + s2.trace) == [g.timeElapsed + 1]
  {
    var t1, t2 := Trap(0x3, 0x1, 0xA5), Trap(0x2, 0x2, 0);
    var s1 := InterruptHandler(g, t1);
    DispatchTimerIffBit0(g, t1);
    DispatchPushbuttonIffBit1(g, t1);
    DispatchTimerIffBit0(s1.globals, t2);
    DispatchPushbuttonIffBit1(s1.globals, t2);
    ReportsAppend(s1.trace, InterruptHandler(s1.globals, t2).trace);
  }
}
